/**
 * Extraction of offers cargo by cargo (scraper_por_cargos.py): for every
 * cargo of a catalog file, a full `get_all_ofertas` run filtered by its code
 * and the "Publicada" state; the non-empty results are kept in a dict keyed
 * by code, flattened in the dict's insertion order and written with a
 * metadata block. The clock reading is the `fecha` parameter.
 */
module ScraperPorCargos {
  import opened Wrappers
  import opened Json
  import opened Text
  import opened Cargos
  import Seqs
  import opened ScraperApd

  /** Batch size of every run: the default of `get_all_ofertas`. */
  const Lote: int := 100

  /** Default `max_por_cargo`. */
  const MaxPorDefecto: Option<int> := Some(150)

  /** Catalog file written by `buscar_ofertas_por_modalidad`. */
  const ArchivoTemporal: string := "temp_cargos.json"

  /** The filters of the search for one cargo code. */
  function FiltrosDeCargo(codigo: string): Filtros
  {
    map["areaincumbencia" := codigo, "estado" := "Publicada"]
  }

  /** The run for one code. */
  function Busqueda(src: PageSource, maxPorCargo: Option<int>, codigo: string): Corrida
  {
    Extraccion(src, Lote, maxPorCargo, Some(FiltrosDeCargo(codigo)))
  }

  /**
   * A code gets an entry when its run raised no error (a missing numFound is
   * caught and the cargo skipped) and yielded at least one offer.
   */
  predicate ConOfertas(run: Corrida)
  {
    run.parada != SinNumFound && run.docs != []
  }

  /** The search of every code, as one function. */
  function Buscador(src: PageSource, maxPorCargo: Option<int>): string -> Corrida
  {
    codigo => Busqueda(src, maxPorCargo, codigo)
  }

  /** The value stored for one code: the cargo and its offers. */
  datatype Entrada = Entrada(cargo: Cargo, ofertas: seq<Dict>)

  /** The `ofertas_por_cargo` dict: its keys in insertion order and its contents. */
  datatype Acumulado = Acumulado(claves: seq<string>, porCodigo: map<string, Entrada>)

  /** The keys listed are exactly the dict's keys, each once. */
  ghost predicate BienFormado(a: Acumulado)
  {
    && (forall i, j :: 0 <= i < j < |a.claves| ==> a.claves[i] != a.claves[j])
    && (forall k :: k in a.porCodigo <==> k in a.claves)
  }

  /** One iteration of the cargo loop: a dict assignment keeps a key's first position. */
  function Agregar(buscar: string -> Corrida, a: Acumulado, c: Cargo): Acumulado
  {
    if ConOfertas(buscar(c.codigo)) then
      Acumulado(if c.codigo in a.porCodigo then a.claves else a.claves + [c.codigo],
                a.porCodigo[c.codigo := Entrada(c, buscar(c.codigo).docs)])
    else a
  }

  /** The dict after the loop has visited `cargos`. */
  function Acumular(buscar: string -> Corrida, cargos: seq<Cargo>): (a: Acumulado)
    ensures BienFormado(a) && |a.claves| <= |cargos|
    decreases |cargos|
  {
    if cargos == [] then Acumulado([], map[])
    else Agregar(buscar, Acumular(buscar, cargos[..|cargos| - 1]), cargos[|cargos| - 1])
  }

  /** The offer lists of the dict's values, in key order. */
  function Listas(a: Acumulado): (r: seq<seq<Dict>>)
    requires BienFormado(a)
    ensures |r| == |a.claves|
  {
    seq(|a.claves|, i requires 0 <= i < |a.claves| => a.porCodigo[a.claves[i]].ofertas)
  }

  /** The flat list of offers. */
  function Todas(a: Acumulado): seq<Dict>
    requires BienFormado(a)
  {
    Seqs.Concat(Listas(a))
  }

  /** The document written to `archivo_salida`, from its counts and offers. */
  function Documento(totalCargos: int, conOfertas: int, todas: seq<Dict>, fecha: string): Json
  {
    JObj(map[
      "metadata" := JObj(map[
        "total_cargos_buscados" := JNum(totalCargos as real),
        "cargos_con_ofertas" := JNum(conOfertas as real),
        "total_ofertas" := JNum(|todas| as real),
        "fecha_extraccion" := JStr(fecha)]),
      "ofertas" := JArr(seq(|todas|, i requires 0 <= i < |todas| => JObj(todas[i])))])
  }

  /** The document written after visiting `totalCargos` cargos into `a`. */
  function Salida(totalCargos: int, a: Acumulado, fecha: string): Json
    requires BienFormado(a)
  {
    Documento(totalCargos, |a.claves|, Todas(a), fecha)
  }

  /** What `extraer_ofertas_por_cargos` does to the file system. */
  function Extraer(src: PageSource, files: Files, archivoCargos: string, archivoSalida: string,
                   maxPorCargo: Option<int>, fecha: string): Result<Files, Error>
  {
    var cargos :- CatalogoDeArchivo(files, archivoCargos);
    Success(files[archivoSalida := Salida(|cargos|, Acumular(Buscador(src, maxPorCargo), cargos), fecha)])
  }

  /** `extraer_ofertas_por_cargos`. */
  method ExtraerOfertasPorCargos(src: PageSource, files: Files, archivoCargos: string, archivoSalida: string,
                                 maxPorCargo: Option<int>, fecha: string) returns (r: Result<Files, Error>)
    ensures r == Extraer(src, files, archivoCargos, archivoSalida, maxPorCargo, fecha)
  {
    var cargado := CargoRepository.LoadFromFile(archivoCargos, files);
    if cargado.Failure? {
      return Failure(cargado.error);
    }
    var cargos := cargado.value.cargos;
    var a := AcumularCargos(src, maxPorCargo, cargos);
    var todas := Aplanar(a);
    r := Success(files[archivoSalida := Documento(|cargos|, |a.claves|, todas, fecha)]);
  }

  /** The loop over the cargos. */
  method AcumularCargos(src: PageSource, maxPorCargo: Option<int>, cargos: seq<Cargo>) returns (a: Acumulado)
    ensures a == Acumular(Buscador(src, maxPorCargo), cargos)
  {
    var claves: seq<string> := [];
    var porCodigo: map<string, Entrada> := map[];
    for i := 0 to |cargos|
      invariant Acumulado(claves, porCodigo) == Acumular(Buscador(src, maxPorCargo), cargos[..i])
    {
      var c := cargos[i];
      ghost var antes := Acumulado(claves, porCodigo);
      var run := GetAllOfertas(src, Lote, maxPorCargo, Some(FiltrosDeCargo(c.codigo)));
      assert run == Buscador(src, maxPorCargo)(c.codigo);
      if run.parada != SinNumFound {
        var ofertas: seq<Dict> := [];
        for j := 0 to |run.docs|
          invariant ofertas == run.docs[..j]
        {
          ofertas := ofertas + [run.docs[j]];
        }
        assert ofertas == run.docs;
        if ofertas != [] {
          if c.codigo !in porCodigo {
            claves := claves + [c.codigo];
          }
          porCodigo := porCodigo[c.codigo := Entrada(c, ofertas)];
        }
      }
      assert Acumulado(claves, porCodigo) == Agregar(Buscador(src, maxPorCargo), antes, c);
      AcumularUltimo(Buscador(src, maxPorCargo), cargos, i);
    }
    assert cargos[..|cargos|] == cargos;
    a := Acumulado(claves, porCodigo);
  }

  /** Visiting one more cargo is one more Agregar. */
  lemma AcumularUltimo(buscar: string -> Corrida, cargos: seq<Cargo>, i: int)
    requires 0 <= i < |cargos|
    ensures Acumular(buscar, cargos[..i + 1]) == Agregar(buscar, Acumular(buscar, cargos[..i]), cargos[i])
  {
    assert cargos[..i + 1][..i] == cargos[..i];
  }

  /** The flattening loop over the dict's values. */
  method Aplanar(a: Acumulado) returns (todas: seq<Dict>)
    requires BienFormado(a)
    ensures todas == Todas(a)
  {
    var listas := Listas(a);
    todas := [];
    for j := 0 to |a.claves|
      invariant todas == Seqs.Concat(listas[..j])
    {
      assert listas[..j + 1][..j] == listas[..j];
      todas := todas + a.porCodigo[a.claves[j]].ofertas;
    }
    assert listas[..|a.claves|] == listas;
  }

  /** The name `buscar_ofertas_por_modalidad` writes to when none is given. */
  function NombrePorDefecto(modalidad: string): string
  {
    "ofertas_" + Lower(modalidad) + ".json"
  }

  /** What `buscar_ofertas_por_modalidad` does to the file system. */
  function ExtraerModalidad(src: PageSource, files: Files, modalidad: string, archivoCargos: string,
                            archivoSalida: Option<string>, fecha: string): Result<Files, Error>
  {
    var salida := if archivoSalida.Some? then archivoSalida.value else NombrePorDefecto(modalidad);
    var cargos :- CatalogoDeArchivo(files, archivoCargos);
    var filtrados := DeModalidad(cargos, modalidad);
    var conTemporal := files[ArchivoTemporal := JArr(ToDicts(filtrados))];
    Success(conTemporal[salida := Salida(|filtrados|, Acumular(Buscador(src, MaxPorDefecto), filtrados), fecha)])
  }

  /** `buscar_ofertas_por_modalidad`: the extraction restricted through a temporary catalog file. */
  method BuscarOfertasPorModalidad(src: PageSource, files: Files, modalidad: string, archivoCargos: string,
                                   archivoSalida: Option<string>, fecha: string) returns (r: Result<Files, Error>)
    ensures r == ExtraerModalidad(src, files, modalidad, archivoCargos, archivoSalida, fecha)
  {
    var salida := if archivoSalida.Some? then archivoSalida.value else NombrePorDefecto(modalidad);
    var cargado := CargoRepository.LoadFromFile(archivoCargos, files);
    if cargado.Failure? {
      return Failure(cargado.error);
    }
    var filtrados := cargado.value.BuscarPorModalidad(modalidad);
    var conTemporal := files[ArchivoTemporal := JArr(ToDicts(filtrados))];
    FlatCatalogRoundTrip(filtrados);
    r := ExtraerOfertasPorCargos(src, conTemporal, ArchivoTemporal, salida, MaxPorDefecto, fecha);
  }

  /** The codes of the cargos whose search yields offers, in catalog order, repeats included. */
  function CodigosConOfertas(buscar: string -> Corrida, cargos: seq<Cargo>): seq<string>
    decreases |cargos|
  {
    if cargos == [] then []
    else
      var c := cargos[|cargos| - 1];
      CodigosConOfertas(buscar, cargos[..|cargos| - 1])
        + (if ConOfertas(buscar(c.codigo)) then [c.codigo] else [])
  }

  /**
   * The dict's keys are the codes with offers, each once, in the order in
   * which they first occur in the catalog: a repeated code neither adds a key
   * nor moves it.
   */
  lemma {:induction false} AcumularClaves(buscar: string -> Corrida, cargos: seq<Cargo>)
    ensures Acumular(buscar, cargos).claves == Seqs.Dedup(CodigosConOfertas(buscar, cargos))
    decreases |cargos|
  {
    if cargos != [] {
      var s, c := cargos[..|cargos| - 1], cargos[|cargos| - 1];
      AcumularClaves(buscar, s);
      var prev := CodigosConOfertas(buscar, s);
      var a0 := Acumular(buscar, s);
      assert Acumular(buscar, cargos) == Agregar(buscar, a0, c);
      if ConOfertas(buscar(c.codigo)) {
        var x := prev + [c.codigo];
        assert CodigosConOfertas(buscar, cargos) == x;
        assert x[..|x| - 1] == prev;
        assert Seqs.Dedup(x) == if c.codigo in Seqs.Dedup(prev) then Seqs.Dedup(prev) else Seqs.Dedup(prev) + [c.codigo];
        assert c.codigo in a0.porCodigo <==> c.codigo in a0.claves;
      } else {
        assert CodigosConOfertas(buscar, cargos) == prev;
      }
    }
  }

  /** A code has an entry exactly when some cargo carries it and its search yields offers. */
  lemma {:induction false} AcumularPresentes(buscar: string -> Corrida, cargos: seq<Cargo>)
    ensures var a := Acumular(buscar, cargos);
      forall k :: k in a.porCodigo <==>
        exists i :: 0 <= i < |cargos| && cargos[i].codigo == k && ConOfertas(buscar(k))
    decreases |cargos|
  {
    if cargos != [] {
      var n := |cargos| - 1;
      var s, c := cargos[..n], cargos[n];
      AcumularPresentes(buscar, s);
      var a0 := Acumular(buscar, s);
      var a := Acumular(buscar, cargos);
      assert a == Agregar(buscar, a0, c);
      forall k
        ensures k in a.porCodigo <==>
          exists i :: 0 <= i < |cargos| && cargos[i].codigo == k && ConOfertas(buscar(k))
      {
        if exists i :: 0 <= i < |cargos| && cargos[i].codigo == k && ConOfertas(buscar(k)) {
          var i :| 0 <= i < |cargos| && cargos[i].codigo == k && ConOfertas(buscar(k));
          if i < n {
            assert s[i].codigo == k;
          }
        }
        if k in a0.porCodigo {
          var i :| 0 <= i < |s| && s[i].codigo == k && ConOfertas(buscar(k));
          assert cargos[i] == s[i];
        }
      }
    }
  }

  /**
   * Every entry holds exactly its code's search results and the LAST cargo
   * of the catalog with that code.
   */
  lemma {:induction false} AcumularEntradas(buscar: string -> Corrida, cargos: seq<Cargo>)
    ensures var a := Acumular(buscar, cargos);
      forall k | k in a.porCodigo ::
        && ConOfertas(buscar(k))
        && a.porCodigo[k].ofertas == buscar(k).docs
        && a.porCodigo[k].cargo.codigo == k
        && exists i ::
          && 0 <= i < |cargos| && cargos[i] == a.porCodigo[k].cargo
          && forall j :: i < j < |cargos| ==> cargos[j].codigo != k
    decreases |cargos|
  {
    if cargos != [] {
      var n := |cargos| - 1;
      var s, c := cargos[..n], cargos[n];
      AcumularEntradas(buscar, s);
      var a0 := Acumular(buscar, s);
      var a := Acumular(buscar, cargos);
      assert a == Agregar(buscar, a0, c);
      forall k | k in a.porCodigo
        ensures && ConOfertas(buscar(k))
                && a.porCodigo[k].ofertas == buscar(k).docs
                && a.porCodigo[k].cargo.codigo == k
                && exists i ::
                  && 0 <= i < |cargos| && cargos[i] == a.porCodigo[k].cargo
                  && forall j :: i < j < |cargos| ==> cargos[j].codigo != k
      {
        if k == c.codigo && ConOfertas(buscar(k)) {
          assert cargos[n] == a.porCodigo[k].cargo;
        } else {
          assert k in a0.porCodigo && a.porCodigo[k] == a0.porCodigo[k];
          var i :| && 0 <= i < |s| && s[i] == a0.porCodigo[k].cargo
                   && forall j :: i < j < |s| ==> s[j].codigo != k;
          assert cargos[i] == s[i];
          assert c.codigo != k;
          forall j | i < j < |cargos| ensures cargos[j].codigo != k {
            if j < n { assert cargos[j] == s[j]; }
          }
        }
      }
    }
  }

  /** The written metadata agrees with the offers written. */
  lemma SalidaConteos(totalCargos: int, a: Acumulado, fecha: string)
    requires BienFormado(a)
    ensures var d := Salida(totalCargos, a, fecha);
      && d.JObj? && "metadata" in d.fields && "ofertas" in d.fields
      && d.fields["ofertas"].JArr?
      && var meta := d.fields["metadata"].fields;
      && meta["total_cargos_buscados"] == JNum(totalCargos as real)
      && meta["cargos_con_ofertas"] == JNum(|a.porCodigo| as real)
      && meta["total_ofertas"] == JNum(|d.fields["ofertas"].items| as real)
      && |d.fields["ofertas"].items| == Seqs.SumLengths(Listas(a))
  {
    Seqs.ConcatLength(Listas(a));
    CardinalidadClaves(a);
  }

  /** A list of distinct codes has as many members as elements. */
  lemma {:induction false} CodigosDistintos(s: seq<string>)
    requires forall i, j :: 0 <= i < j < |s| ==> s[i] != s[j]
    ensures |set x | x in s| == |s|
    decreases |s|
  {
    if s != [] {
      var p := s[..|s| - 1];
      var u := s[|s| - 1];
      assert forall i, j :: 0 <= i < j < |p| ==> p[i] != p[j] by {
        forall i, j | 0 <= i < j < |p| ensures p[i] != p[j] {
          assert p[i] == s[i] && p[j] == s[j];
        }
      }
      CodigosDistintos(p);
      assert s == p + [u];
      assert (set x | x in s) == (set x | x in p) + {u};
      assert forall i | 0 <= i < |p| :: p[i] != u;
    }
  }

  /** A dict with distinct listed keys has as many keys as the list. */
  lemma CardinalidadClaves(a: Acumulado)
    requires BienFormado(a)
    ensures |a.porCodigo| == |a.claves|
  {
    CodigosDistintos(a.claves);
    assert a.porCodigo.Keys == set x | x in a.claves;
  }

  /** The cargos with offers never outnumber the cargos searched. */
  lemma ExtraerConteos(src: PageSource, files: Files, archivoCargos: string, archivoSalida: string,
                       maxPorCargo: Option<int>, fecha: string)
    ensures var r := Extraer(src, files, archivoCargos, archivoSalida, maxPorCargo, fecha);
      r.Success? <==> CatalogoDeArchivo(files, archivoCargos).Success?
    ensures var r := Extraer(src, files, archivoCargos, archivoSalida, maxPorCargo, fecha);
      r.Failure? ==> r.error == CatalogoDeArchivo(files, archivoCargos).error
    ensures var r := Extraer(src, files, archivoCargos, archivoSalida, maxPorCargo, fecha);
      r.Success? ==>
        && archivoSalida in r.value
        && (forall p | p in files && p != archivoSalida :: p in r.value && r.value[p] == files[p])
        && var cargos := CatalogoDeArchivo(files, archivoCargos).value;
        && var a := Acumular(Buscador(src, maxPorCargo), cargos);
        && r.value[archivoSalida] == Salida(|cargos|, a, fecha)
        && |a.porCodigo| <= |cargos|
  {
    var cat := CatalogoDeArchivo(files, archivoCargos);
    if cat.Success? {
      CardinalidadClaves(Acumular(Buscador(src, maxPorCargo), cat.value));
    }
  }

  /** Sum of lengths of lists that each hold at most `m`. */
  lemma {:induction false} SumaAcotada(ss: seq<seq<Dict>>, m: int)
    requires m >= 0 && forall i :: 0 <= i < |ss| ==> |ss[i]| <= m
    ensures Seqs.SumLengths(ss) <= m * |ss|
    decreases |ss|
  {
    if ss != [] {
      SumaAcotada(ss[..|ss| - 1], m);
      assert m * |ss| == m * (|ss| - 1) + m;
    }
  }

  /**
   * With a positive `max_por_cargo`, every code contributes at most that
   * many offers, so the flat list holds at most `max * cargos_con_ofertas`.
   */
  lemma LimitePorCargo(src: PageSource, m: int, cargos: seq<Cargo>)
    requires m > 0
    ensures var a := Acumular(Buscador(src, Some(m)), cargos);
      && (forall k | k in a.porCodigo :: |a.porCodigo[k].ofertas| <= m)
      && |Todas(a)| <= m * |a.claves|
  {
    var a := Acumular(Buscador(src, Some(m)), cargos);
    AcumularEntradas(Buscador(src, Some(m)), cargos);
    forall k | k in a.porCodigo ensures |a.porCodigo[k].ofertas| <= m {
      ExtraccionLimitada(src, Lote, m, Some(FiltrosDeCargo(k)));
    }
    var ls := Listas(a);
    forall i | 0 <= i < |ls| ensures |ls[i]| <= m {
      assert a.claves[i] in a.porCodigo;
    }
    SumaAcotada(ls, m);
    Seqs.ConcatLength(ls);
  }

  /** Every request of a cargo's search asks for published offers of that code only. */
  lemma ConsultaDeCargo(codigo: string, start: int)
    ensures var p := ParamsFor(start, Lote, Some(FiltrosDeCargo(codigo)));
      && p.start == start && p.rows == Lote
      && p.fq == Some(Filtro("estado", "Publicada") + " AND " + Filtro("areaincumbencia", codigo))
  {
    FqForCargo(start, Lote, codigo);
  }

  /**
   * `buscar_ofertas_por_modalidad` searches exactly the cargos of the
   * modalidad (ignoring case), keeps the other files, and caps each code
   * at 150 offers.
   */
  lemma ModalidadSoloSuya(src: PageSource, files: Files, modalidad: string, archivoCargos: string,
                          archivoSalida: Option<string>, fecha: string)
    ensures var r := ExtraerModalidad(src, files, modalidad, archivoCargos, archivoSalida, fecha);
      r.Success? <==> CatalogoDeArchivo(files, archivoCargos).Success?
    ensures var r := ExtraerModalidad(src, files, modalidad, archivoCargos, archivoSalida, fecha);
      r.Success? ==>
        && var cargos := CatalogoDeArchivo(files, archivoCargos).value;
        && var filtrados := DeModalidad(cargos, modalidad);
        && var a := Acumular(Buscador(src, MaxPorDefecto), filtrados);
        && (forall k | k in a.porCodigo ::
              && a.porCodigo[k].cargo in cargos
              && EsModalidad(a.porCodigo[k].cargo, modalidad)
              && |a.porCodigo[k].ofertas| <= 150)
  {
    var cat := CatalogoDeArchivo(files, archivoCargos);
    if cat.Success? {
      var filtrados := DeModalidad(cat.value, modalidad);
      AcumularEntradas(Buscador(src, MaxPorDefecto), filtrados);
      LimitePorCargo(src, 150, filtrados);
    }
  }
}
