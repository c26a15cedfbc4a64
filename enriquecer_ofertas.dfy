/**
 * Enrichment of extracted offers with catalog data (enriquecer_ofertas.py):
 * every offer is copied with a `cargo_info` object describing the catalog
 * entry found for it (by area, else by code), and the metadata gains the
 * number and share of matched offers.
 */
module EnriquecerOfertas {
  import opened Wrappers
  import opened Json
  import opened Text
  import opened Cargos
  import Seqs
  import ValidarOfertas

  /**
   * The entry found for an offer: the first with its `cargo` text as area
   * (ignoring case), else the first with its `areaincumbencia` code, which
   * defaults to "" and is looked up even when empty. A non-string `cargo`
   * fails on `.lower()`; so does a non-string code once there is a cargo to
   * compare with.
   */
  function Coincidencia(cargos: seq<Cargo>, cargo: Json, codigo: Json): Result<Option<Cargo>, Error>
  {
    if !cargo.JStr? then Failure(AttributeError)
    else
      var porArea := CargoConArea(cargos, cargo.s);
      if porArea.Some? then Success(porArea)
      else if codigo.JStr? then Success(CargoConCodigo(cargos, codigo.s))
      else if cargos == [] then Success(None)
      else Failure(AttributeError)
  }

  /** The `cargo_info` object for a lookup outcome. */
  function CargoInfo(encontrado: Option<Cargo>): Json
  {
    match encontrado
    case Some(c) =>
      JObj(map["validado" := JBool(true), "modalidad_cargo" := JStr(c.modalidad),
               "codigo_cargo" := JStr(c.codigo), "valor" := c.valor])
    case None =>
      JObj(map["validado" := JBool(false), "modalidad_cargo" := JNull,
               "codigo_cargo" := JNull, "valor" := JNum(0.0)])
  }

  /** An enriched offer and whether it was matched. */
  datatype Enriquecida = Enriquecida(oferta: Dict, validada: bool)

  /** The enrichment of one element of `data['ofertas']`. */
  function EnriquecerUna(cargos: seq<Cargo>, o: Json): Result<Enriquecida, Error>
  {
    if !o.JObj? then Failure(TypeError)
    else if "cargo" !in o.fields then Failure(KeyError("cargo"))
    else
      var encontrado :- Coincidencia(cargos, o.fields["cargo"], Get(o.fields, "areaincumbencia", JStr("")));
      Success(Enriquecida(o.fields["cargo_info" := CargoInfo(encontrado)], encontrado.Some?))
  }

  /** All elements in order; the first failing one ends the run. */
  function EnriquecerTodas(cargos: seq<Cargo>, items: seq<Json>): (r: Result<seq<Enriquecida>, Error>)
    ensures r.Success? ==>
      && |r.value| == |items|
      && forall i :: 0 <= i < |items| ==> EnriquecerUna(cargos, items[i]) == Success(r.value[i])
    decreases |items|
  {
    if items == [] then Success([])
    else
      var prev :- EnriquecerTodas(cargos, items[..|items| - 1]);
      var last :- EnriquecerUna(cargos, items[|items| - 1]);
      assert forall i :: 0 <= i < |items| - 1 ==> items[..|items| - 1][i] == items[i];
      Success(prev + [last])
  }

  predicate EsValidada(e: Enriquecida)
  {
    e.validada
  }

  /** `match_count`. */
  function Coincidencias(es: seq<Enriquecida>): nat
  {
    Seqs.CountWhere(es, EsValidada)
  }

  /** The metadata written: the input's, plus the match count and percentage. */
  function Metadata(meta: Dict, matchCount: nat, total: nat): Json
    requires total > 0
  {
    JObj(meta["ofertas_validadas" := JNum(matchCount as real)]
             ["porcentaje_validacion" := JNum(Porcentual(matchCount, total))])
  }

  /** The output document. */
  function Salida(meta: Dict, es: seq<Enriquecida>): Json
    requires es != []
  {
    JObj(map["metadata" := Metadata(meta, Coincidencias(es), |es|),
             "ofertas" := JArr(seq(|es|, i requires 0 <= i < |es| => JObj(es[i].oferta)))])
  }

  /** The whole script on the file system. */
  function EnriquecerArchivos(files: Files, archivoOfertas: string, archivoCargos: string,
                              archivoSalida: string): Result<Files, Error>
  {
    if archivoOfertas !in files then Failure(FileNotFound(archivoOfertas))
    else
      var data := files[archivoOfertas];
      var cargos :- CatalogoDeArchivo(files, archivoCargos);
      if !data.JObj? then Failure(TypeError)
      else if "ofertas" !in data.fields then Failure(KeyError("ofertas"))
      else
        var items :- Elements(data.fields["ofertas"]);
        var es :- EnriquecerTodas(cargos, items);
        if "metadata" !in data.fields then Failure(KeyError("metadata"))
        else if !data.fields["metadata"].JObj? then Failure(TypeError)
        else if es == [] then Failure(ZeroDivision)
        else Success(files[archivoSalida := Salida(data.fields["metadata"].fields, es)])
  }

  lemma EnriquecerPaso(cargos: seq<Cargo>, items: seq<Json>, i: int, es: seq<Enriquecida>, e: Enriquecida)
    requires 0 <= i < |items|
    requires EnriquecerTodas(cargos, items[..i]) == Success(es)
    requires EnriquecerUna(cargos, items[i]) == Success(e)
    ensures EnriquecerTodas(cargos, items[..i + 1]) == Success(es + [e])
  {
    assert items[..i + 1][..i] == items[..i];
  }

  lemma {:induction false} EnriquecerFalla(cargos: seq<Cargo>, items: seq<Json>, i: int, err: Error)
    requires 0 <= i < |items|
    requires EnriquecerTodas(cargos, items[..i]).Success?
    requires EnriquecerUna(cargos, items[i]) == Failure(err)
    ensures EnriquecerTodas(cargos, items) == Failure(err)
    decreases |items|
  {
    if i < |items| - 1 {
      assert items[..|items| - 1][..i] == items[..i];
      EnriquecerFalla(cargos, items[..|items| - 1], i, err);
    } else {
      assert items[..|items| - 1] == items[..i];
    }
  }

  /** The loop body for one offer, with the repository's own lookups. */
  method EnriquecerFila(repo: CargoRepository, oferta: Json) returns (r: Result<Enriquecida, Error>)
    ensures r == EnriquecerUna(repo.cargos, oferta)
  {
    if !oferta.JObj? {
      return Failure(TypeError);
    }
    if "cargo" !in oferta.fields {
      return Failure(KeyError("cargo"));
    }
    var cargo := oferta.fields["cargo"];
    if !cargo.JStr? {
      return Failure(AttributeError);
    }
    var cargoEncontrado := repo.BuscarAreaExacta(cargo.s);
    if cargoEncontrado.None? {
      var codigo := Get(oferta.fields, "areaincumbencia", JStr(""));
      if codigo.JStr? {
        cargoEncontrado := repo.BuscarPorCodigo(codigo.s);
      } else if repo.cargos != [] {
        return Failure(AttributeError);
      }
    }
    var ofertaEnriquecida := oferta.fields;
    ofertaEnriquecida := ofertaEnriquecida["cargo_info" := CargoInfo(cargoEncontrado)];
    r := Success(Enriquecida(ofertaEnriquecida, cargoEncontrado.Some?));
  }

  /** The loop of `enriquecer_ofertas` with its match counter. */
  method EnriquecerLista(repo: CargoRepository, items: seq<Json>) returns (r: Result<seq<Enriquecida>, Error>, matchCount: nat)
    ensures r == EnriquecerTodas(repo.cargos, items)
    ensures r.Success? ==> matchCount == Coincidencias(r.value)
  {
    ghost var cargos := repo.cargos;
    var ofertasEnriquecidas: seq<Enriquecida> := [];
    matchCount := 0;
    for i := 0 to |items|
      invariant EnriquecerTodas(cargos, items[..i]) == Success(ofertasEnriquecidas)
      invariant matchCount == Coincidencias(ofertasEnriquecidas)
    {
      var e := EnriquecerFila(repo, items[i]);
      if e.Failure? {
        EnriquecerFalla(cargos, items, i, e.error);
        return Failure(e.error), matchCount;
      }
      EnriquecerPaso(cargos, items, i, ofertasEnriquecidas, e.value);
      Seqs.CountWhereAppend(ofertasEnriquecidas, e.value, EsValidada);
      if e.value.validada {
        matchCount := matchCount + 1;
      }
      ofertasEnriquecidas := ofertasEnriquecidas + [e.value];
    }
    assert items[..|items|] == items;
    r := Success(ofertasEnriquecidas);
  }

  /** `enriquecer_ofertas`: reads both files, enriches every offer, writes `archivoSalida`. */
  method EnriquecerOfertasArchivos(files: Files, archivoOfertas: string, archivoCargos: string,
                                   archivoSalida: string) returns (r: Result<Files, Error>)
    ensures r == EnriquecerArchivos(files, archivoOfertas, archivoCargos, archivoSalida)
  {
    if archivoOfertas !in files {
      return Failure(FileNotFound(archivoOfertas));
    }
    var data := files[archivoOfertas];
    var cargado := CargoRepository.LoadFromFile(archivoCargos, files);
    if cargado.Failure? {
      return Failure(cargado.error);
    }
    var repo := cargado.value;
    if !data.JObj? {
      return Failure(TypeError);
    }
    if "ofertas" !in data.fields {
      return Failure(KeyError("ofertas"));
    }
    var items := Elements(data.fields["ofertas"]);
    if items.Failure? {
      return Failure(items.error);
    }
    var enriquecidas, matchCount := EnriquecerLista(repo, items.value);
    if enriquecidas.Failure? {
      return Failure(enriquecidas.error);
    }
    if "metadata" !in data.fields {
      return Failure(KeyError("metadata"));
    }
    var metadata := data.fields["metadata"];
    if !metadata.JObj? {
      return Failure(TypeError);
    }
    var es := enriquecidas.value;
    if |es| == 0 {
      return Failure(ZeroDivision);
    }
    var salida := JObj(map[
      "metadata" := JObj(metadata.fields["ofertas_validadas" := JNum(matchCount as real)]
                                        ["porcentaje_validacion" := JNum(Porcentual(matchCount, |es|))]),
      "ofertas" := JArr(seq(|es|, i requires 0 <= i < |es| => JObj(es[i].oferta)))]);
    r := Success(files[archivoSalida := salida]);
  }

  /**
   * An enriched offer is the input offer with exactly one key set,
   * `cargo_info`; it is marked validated exactly when a catalog entry was
   * found, whose modalidad, code and valor it then carries, and otherwise
   * holds nulls and valor 0.0.
   */
  lemma EnriquecidaForma(cargos: seq<Cargo>, o: Json)
    ensures EnriquecerUna(cargos, o).Success? ==>
      var e := EnriquecerUna(cargos, o).value;
      && o.JObj? && e.oferta.Keys == o.fields.Keys + {"cargo_info"}
      && (forall k :: k in o.fields && k != "cargo_info" ==> e.oferta[k] == o.fields[k])
      && e.oferta["cargo_info"].JObj?
      && (e.validada <==> e.oferta["cargo_info"].fields["validado"] == JBool(true))
      && (e.validada ==> exists c ::
            && c in cargos
            && e.oferta["cargo_info"] == CargoInfo(Some(c))
            && (|| EqualsIgnoreCase(c.area, o.fields["cargo"].s)
                || (Get(o.fields, "areaincumbencia", JStr("")).JStr?
                    && EsCodigo(c, Get(o.fields, "areaincumbencia", JStr("")).s))))
      && (!e.validada ==> e.oferta["cargo_info"] == CargoInfo(None))
  {
    if EnriquecerUna(cargos, o).Success? {
      var area := Get(o.fields, "areaincumbencia", JStr(""));
      var m := Coincidencia(cargos, o.fields["cargo"], area).value;
      assert EnriquecerUna(cargos, o).value == Enriquecida(o.fields["cargo_info" := CargoInfo(m)], m.Some?);
      if m.Some? {
        CoincidenciaEncontrada(cargos, o.fields["cargo"], area);
      }
    }
  }

  /** A found entry is in the catalog and matches the `cargo` text or the code. */
  lemma CoincidenciaEncontrada(cargos: seq<Cargo>, cargo: Json, codigo: Json)
    requires Coincidencia(cargos, cargo, codigo).Success?
    requires Coincidencia(cargos, cargo, codigo).value.Some?
    ensures var c := Coincidencia(cargos, cargo, codigo).value.value;
      && cargo.JStr? && c in cargos
      && (EqualsIgnoreCase(c.area, cargo.s) || (codigo.JStr? && EsCodigo(c, codigo.s)))
  {
    var c := Coincidencia(cargos, cargo, codigo).value.value;
    if CargoConArea(cargos, cargo.s).Some? {
      var i :| 0 <= i < |cargos| && cargos[i] == c && EqualsIgnoreCase(c.area, cargo.s);
    } else {
      var i :| 0 <= i < |cargos| && cargos[i] == c && EsCodigo(c, codigo.s);
    }
  }

  /**
   * A run that succeeds read an object with `ofertas` and an object
   * `metadata`, enriched every element, and wrote `Salida` of them.
   */
  lemma ArchivosExito(files: Files, archivoOfertas: string, archivoCargos: string, archivoSalida: string)
    requires EnriquecerArchivos(files, archivoOfertas, archivoCargos, archivoSalida).Success?
    ensures archivoOfertas in files && files[archivoOfertas].JObj?
    ensures var data := files[archivoOfertas].fields;
      && "ofertas" in data && "metadata" in data && data["metadata"].JObj?
      && CatalogoDeArchivo(files, archivoCargos).Success?
      && Elements(data["ofertas"]).Success?
      && var es := EnriquecerTodas(CatalogoDeArchivo(files, archivoCargos).value,
                                   Elements(data["ofertas"]).value);
         && es.Success? && es.value != []
         && EnriquecerArchivos(files, archivoOfertas, archivoCargos, archivoSalida)
            == Success(files[archivoSalida := Salida(data["metadata"].fields, es.value)])
  {
  }

  /**
   * The output holds the enriched offers in input order; its metadata keeps
   * every input key except the two it sets, counts the matched offers and
   * gives their percentage.
   */
  lemma SalidaConteos(meta: Dict, es: seq<Enriquecida>)
    requires es != []
    ensures var out := Salida(meta, es);
      var m := out.fields["metadata"].fields;
      var n := Coincidencias(es);
      && |out.fields["ofertas"].items| == |es|
      && (forall i :: 0 <= i < |es| ==> out.fields["ofertas"].items[i] == JObj(es[i].oferta))
      && (forall k :: k in meta && k != "ofertas_validadas" && k != "porcentaje_validacion" ==> k in m && m[k] == meta[k])
      && n == |Seqs.Filter(es, EsValidada)| <= |es|
      && m["ofertas_validadas"] == JNum(n as real)
      && m["porcentaje_validacion"] == JNum(Porcentual(n, |es|))
      && 0.0 <= Porcentual(n, |es|) <= 100.0
  {
    Seqs.CountWhereFilter(es, EsValidada);
    ValidarOfertas.Porcentaje(Coincidencias(es), |es|);
  }

  /**
   * For text `cargo` and code, the enricher and the validator find the same
   * entry except in one case: the code is empty, no area matches, and some
   * catalog entry has an empty code. The validator skips an empty code; the
   * enricher looks it up and matches that entry.
   */
  lemma DifiereDelValidador(cargos: seq<Cargo>, cargo: string, codigo: string)
    ensures Coincidencia(cargos, JStr(cargo), JStr(codigo)) != ValidarOfertas.Coincidencia(cargos, cargo, ValidarOfertas.Val(JStr(codigo)))
      <==> codigo == "" && CargoConArea(cargos, cargo).None? && exists i :: 0 <= i < |cargos| && cargos[i].codigo == ""
  {
    if codigo == "" {
      forall i | 0 <= i < |cargos|
        ensures EsCodigo(cargos[i], codigo) <==> cargos[i].codigo == ""
      {
        assert |Lower(cargos[i].codigo)| == |cargos[i].codigo|;
      }
    }
  }
}
