/**
 * The paginated extractor (scraper_apd.py): building the query parameters of
 * one page request, the cursor loop of `get_all_ofertas`, and the record
 * count written by `save_to_json`. The HTTP request itself is an abstract
 * page source: a function from the request parameters to the parsed body,
 * or None when the request raised.
 */
module ScraperApd {
  import opened Wrappers
  import opened Json

  /** The `filtros` dict, values already formatted as they appear in the query. */
  type Filtros = map<string, string>

  /** Query parameters of one request. */
  datatype Params = Params(q: string, rows: int, start: int, wt: string, jsonNl: string,
                           sort: string, fq: Option<string>)

  /** The `response` object of a page: `numFound` (absent when missing) and `docs`. */
  datatype Response = Response(numFound: Option<int>, docs: seq<Dict>)

  /** A parsed page body; `response` is None when the body has no such key or is empty. */
  datatype Page = Page(response: Option<Response>)

  /** The remote search endpoint: None when the request raised. */
  type PageSource = Params -> Option<Page>

  /** One `field:"value"` clause. */
  function Filtro(campo: string, valor: string): string
  {
    campo + ":\"" + valor + "\""
  }

  /** The clause for filter key `k` on field `campo` when `k` is present, else nothing. */
  function Clausula(f: Filtros, k: string, campo: string): seq<string>
  {
    if k in f then [Filtro(campo, f[k])] else []
  }

  /**
   * The `fq` clauses: one per recognised key present, in the fixed order
   * distrito (on field descdistrito), estado, cargo, areaincumbencia, idoferta.
   */
  function Clausulas(f: Filtros): seq<string>
  {
    Clausula(f, "distrito", "descdistrito") + Clausula(f, "estado", "estado") + Clausula(f, "cargo", "cargo")
    + Clausula(f, "areaincumbencia", "areaincumbencia") + Clausula(f, "idoferta", "idoferta")
  }

  /** `sep.join(parts)`. */
  function Join(parts: seq<string>, sep: string): string
  {
    if parts == [] then "" else if |parts| == 1 then parts[0] else parts[0] + sep + Join(parts[1..], sep)
  }

  predicate Reconocida(k: string)
  {
    k == "distrito" || k == "estado" || k == "cargo" || k == "areaincumbencia" || k == "idoferta"
  }

  /** The parameters `get_ofertas` sends. */
  function ParamsFor(start: int, rows: int, filtros: Option<Filtros>): Params
  {
    Params("*:*", rows, start, "json", "map", "finoferta desc", FqDe(filtros))
  }

  /** The `fq` parameter: the clauses joined with AND, absent when there are none. */
  function FqDe(filtros: Option<Filtros>): Option<string>
  {
    if filtros.None? || filtros.value == map[] then None
    else
      var cl := Clausulas(filtros.value);
      if cl == [] then None else Some(Join(cl, " AND "))
  }

  /** `get_ofertas`: builds the parameters clause by clause, then asks the page source. */
  method GetOfertas(src: PageSource, start: int, rows: int, filtros: Option<Filtros>)
    returns (data: Option<Page>)
    ensures data == src(ParamsFor(start, rows, filtros))
  {
    var params := Params("*:*", rows, start, "json", "map", "finoferta desc", None);
    if filtros.Some? && filtros.value != map[] {
      var f := filtros.value;
      var fqFilters: seq<string> := [];
      if "distrito" in f {
        fqFilters := fqFilters + [Filtro("descdistrito", f["distrito"])];
      }
      assert fqFilters == Clausula(f, "distrito", "descdistrito");
      ghost var hasta := fqFilters;
      if "estado" in f {
        fqFilters := fqFilters + [Filtro("estado", f["estado"])];
      }
      assert fqFilters == hasta + Clausula(f, "estado", "estado");
      hasta := fqFilters;
      if "cargo" in f {
        fqFilters := fqFilters + [Filtro("cargo", f["cargo"])];
      }
      assert fqFilters == hasta + Clausula(f, "cargo", "cargo");
      hasta := fqFilters;
      if "areaincumbencia" in f {
        fqFilters := fqFilters + [Filtro("areaincumbencia", f["areaincumbencia"])];
      }
      assert fqFilters == hasta + Clausula(f, "areaincumbencia", "areaincumbencia");
      hasta := fqFilters;
      if "idoferta" in f {
        fqFilters := fqFilters + [Filtro("idoferta", f["idoferta"])];
      }
      assert fqFilters == hasta + Clausula(f, "idoferta", "idoferta");
      assert fqFilters == Clausulas(f);
      if fqFilters != [] {
        params := params.(fq := Some(Join(fqFilters, " AND ")));
      }
    }
    data := src(params);
  }

  /**
   * Every request asks for all records, as JSON, newest closing date first,
   * with the caller's `start` and `rows`; `fq` is absent exactly when there
   * is no filter dict or it has no recognised key.
   */
  lemma ParamsForShape(start: int, rows: int, filtros: Option<Filtros>)
    ensures var p := ParamsFor(start, rows, filtros);
      && p.q == "*:*" && p.wt == "json" && p.jsonNl == "map" && p.sort == "finoferta desc"
      && p.start == start && p.rows == rows
      && (p.fq.None? <==> filtros.None? || forall k :: k in filtros.value ==> !Reconocida(k))
  {
  }

  /** Keys other than the five recognised ones do not change the request. */
  lemma UnrecognisedKeysIgnored(start: int, rows: int, f: Filtros)
    ensures ParamsFor(start, rows, Some(f)) ==
            ParamsFor(start, rows, Some(map k | k in f && Reconocida(k) :: f[k]))
  {
    var g := map k | k in f && Reconocida(k) :: f[k];
    assert Clausulas(f) == Clausulas(g);
    if f != map[] && g == map[] {
      assert forall k :: k in f ==> !Reconocida(k);
    }
    if f == map[] {
      assert g == map[];
    }
  }

  /**
   * The filters the per-cargo driver uses give the estado clause first, then
   * the areaincumbencia clause, whatever order the dict was written in.
   */
  lemma FqForCargo(start: int, rows: int, codigo: string)
    ensures ParamsFor(start, rows, Some(map["areaincumbencia" := codigo, "estado" := "Publicada"])).fq
            == Some(Filtro("estado", "Publicada") + " AND " + Filtro("areaincumbencia", codigo))
  {
    var f := map["areaincumbencia" := codigo, "estado" := "Publicada"];
    assert "estado" in f && f["estado"] == "Publicada";
    assert "distrito" !in f && "cargo" !in f && "idoferta" !in f;
    var cl := [Filtro("estado", "Publicada"), Filtro("areaincumbencia", codigo)];
    assert Clausulas(f) == cl;
    assert Join(cl, " AND ") == cl[0] + " AND " + Join(cl[1..], " AND ");
  }

  /** Why a run of `get_all_ofertas` ended. */
  datatype Parada =
    | SinDatos      // a request failed or the body had no "response"
    | SinNumFound   // the first response had no "numFound": KeyError
    | PaginaVacia   // a page had no docs
    | Limite        // max_ofertas docs were yielded
    | Agotado       // start reached the total of the first page

  /** A run: the docs yielded, the `start` of every request, the total snapshot, the stop. */
  datatype Corrida = Corrida(docs: seq<Dict>, starts: seq<int>, total: Option<int>, parada: Parada)

  /** `max_ofertas` is in force when it is a non-zero number (Python truthiness). */
  predicate Limitado(maxOfertas: Option<int>)
  {
    maxOfertas.Some? && maxOfertas.value != 0
  }

  /** How many docs of the current page a limited run yields before it returns. */
  function Cupo(maxOfertas: int, count: int): int
  {
    if maxOfertas - count >= 1 then maxOfertas - count else 1
  }

  function Measure(total: Option<int>, start: int): int
  {
    if total.Some? then total.value - start else 0
  }

  /** What one page does to a run: end it with a final segment, or yield its docs and go on. */
  datatype Paso = Fin(ultimo: Corrida) | Sigue(docs: seq<Dict>, t: int)

  /** One iteration of the cursor loop, given the page fetched at `start`. */
  function PasoDe(page: Option<Page>, batchSize: int, maxOfertas: Option<int>,
                  start: int, total: Option<int>, count: int): (r: Paso)
    ensures r.Sigue? ==> start + batchSize < r.t && (total.Some? ==> r.t == total.value)
  {
    if page.None? || page.value.response.None? then Fin(Corrida([], [start], total, SinDatos))
    else
      var resp := page.value.response.value;
      if total.None? && resp.numFound.None? then Fin(Corrida([], [start], total, SinNumFound))
      else
        var t := if total.None? then resp.numFound.value else total.value;
        var docs := resp.docs;
        if |docs| == 0 then Fin(Corrida([], [start], Some(t), PaginaVacia))
        else if Limitado(maxOfertas) && |docs| >= Cupo(maxOfertas.value, count) then
          Fin(Corrida(docs[..Cupo(maxOfertas.value, count)], [start], Some(t), Limite))
        else if start + batchSize >= t then Fin(Corrida(docs, [start], Some(t), Agotado))
        else Sigue(docs, t)
  }

  /**
   * The rest of a run from the request at `start`, with the total snapshot
   * taken so far and `count` docs already yielded.
   */
  function Paginar(fetch: int -> Option<Page>, batchSize: int, maxOfertas: Option<int>,
                   start: int, total: Option<int>, count: int): Corrida
    requires batchSize > 0
    decreases if total.None? then 1 else 0, Measure(total, start), 1
  {
    Seguir(PasoDe(fetch(start), batchSize, maxOfertas, start, total, count), fetch, batchSize, maxOfertas, start, total, count)
  }

  /** The rest of a run after the page at `start` took the step `p`. */
  function Seguir(p: Paso, fetch: int -> Option<Page>, batchSize: int, maxOfertas: Option<int>,
                  start: int, total: Option<int>, count: int): Corrida
    requires batchSize > 0
    requires p.Sigue? ==> start + batchSize < p.t && (total.Some? ==> p.t == total.value)
    decreases if total.None? then 1 else 0, Measure(total, start), 0
  {
    match p
    case Fin(c) => c
    case Sigue(docs, t) =>
      Anteponer(docs, [start], Paginar(fetch, batchSize, maxOfertas, start + batchSize, Some(t), count + |docs|))
  }

  /** `rest` preceded by the docs and request starts of earlier pages. */
  function Anteponer(docs: seq<Dict>, starts: seq<int>, rest: Corrida): Corrida
  {
    Corrida(docs + rest.docs, starts + rest.starts, rest.total, rest.parada)
  }

  /** The page a run obtains for each `start`. */
  function Pedidos(src: PageSource, batchSize: int, filtros: Option<Filtros>): int -> Option<Page>
  {
    s => src(ParamsFor(s, batchSize, filtros))
  }

  /** A whole run of `get_all_ofertas`. */
  function Extraccion(src: PageSource, batchSize: int, maxOfertas: Option<int>, filtros: Option<Filtros>): Corrida
    requires batchSize > 0
  {
    Paginar(Pedidos(src, batchSize, filtros), batchSize, maxOfertas, 0, None, 0)
  }

  /**
   * `get_all_ofertas`, with the generator's output collected: the docs in the
   * order they are yielded, the `start` of every request, the total taken
   * from the first page, and why the loop ended.
   */
  method GetAllOfertas(src: PageSource, batchSize: int, maxOfertas: Option<int>, filtros: Option<Filtros>)
    returns (run: Corrida)
    requires batchSize > 0
    ensures run == Extraccion(src, batchSize, maxOfertas, filtros)
  {
    var start := 0;
    var totalFound: Option<int> := None;
    var ofertasExtraidas := 0;
    var docs: seq<Dict> := [];
    var starts: seq<int> := [];
    ghost var objetivo := Extraccion(src, batchSize, maxOfertas, filtros);
    while true
      invariant objetivo == Anteponer(docs, starts, Paginar(Pedidos(src, batchSize, filtros), batchSize, maxOfertas,
                                                            start, totalFound, ofertasExtraidas))
      decreases if totalFound.None? then 1 else 0, Measure(totalFound, start)
    {
      var paso := Vuelta(src, batchSize, maxOfertas, filtros, start, totalFound, ofertasExtraidas, objetivo, docs, starts);
      match paso {
        case Fin(ultimo) =>
          return Anteponer(docs, starts, ultimo);
        case Sigue(page, t) =>
          docs := docs + page;
          starts := starts + [start];
          ofertasExtraidas := ofertasExtraidas + |page|;
          totalFound := Some(t);
          start := start + batchSize;
      }
    }
  }

  /** A pass of the loop, seen from the whole run it belongs to. */
  method Vuelta(src: PageSource, batchSize: int, maxOfertas: Option<int>, filtros: Option<Filtros>,
                start: int, totalFound: Option<int>, ofertasExtraidas: int,
                ghost objetivo: Corrida, ghost docs: seq<Dict>, ghost starts: seq<int>)
    returns (paso: Paso)
    requires batchSize > 0
    requires objetivo == Anteponer(docs, starts, Paginar(Pedidos(src, batchSize, filtros), batchSize, maxOfertas,
                                                          start, totalFound, ofertasExtraidas))
    ensures paso.Fin? ==> objetivo == Anteponer(docs, starts, paso.ultimo)
    ensures paso.Sigue? ==>
      && start + batchSize < paso.t && (totalFound.Some? ==> paso.t == totalFound.value)
      && 0 <= Measure(Some(paso.t), start + batchSize)
      && (totalFound.Some? ==> Measure(Some(paso.t), start + batchSize) < Measure(totalFound, start))
      && objetivo == Anteponer(docs + paso.docs, starts + [start],
                               Paginar(Pedidos(src, batchSize, filtros), batchSize, maxOfertas,
                                       start + batchSize, Some(paso.t), ofertasExtraidas + |paso.docs|))
  {
    paso := Ronda(src, batchSize, maxOfertas, filtros, start, totalFound, ofertasExtraidas);
    Avance(objetivo, docs, starts, Pedidos(src, batchSize, filtros), batchSize, maxOfertas,
           start, totalFound, ofertasExtraidas, paso);
  }

  /**
   * One pass of the cursor loop's body: request the page at `start`, read
   * the total on the first pass, yield the page's docs through the inner
   * loop, and decide whether the run ends here.
   */
  method Ronda(src: PageSource, batchSize: int, maxOfertas: Option<int>, filtros: Option<Filtros>,
               start: int, totalFound: Option<int>, ofertasExtraidas: int)
    returns (paso: Paso)
    requires batchSize > 0
    ensures paso == PasoDe(Pedidos(src, batchSize, filtros)(start), batchSize, maxOfertas, start, totalFound, ofertasExtraidas)
  {
    var data := GetOfertas(src, start, batchSize, filtros);
    if data.None? || data.value.response.None? {
      return Fin(Corrida([], [start], totalFound, SinDatos));
    }
    var response := data.value.response.value;
    var total := totalFound;
    if total.None? {
      if response.numFound.None? {
        return Fin(Corrida([], [start], total, SinNumFound));
      }
      total := response.numFound;
    }
    var page := response.docs;
    if page == [] {
      return Fin(Corrida([], [start], total, PaginaVacia));
    }
    var tomados, limite := TomarPagina(page, ofertasExtraidas, maxOfertas);
    if limite {
      return Fin(Corrida(tomados, [start], total, Limite));
    }
    if start + batchSize >= total.value {
      return Fin(Corrida(tomados, [start], total, Agotado));
    }
    return Sigue(tomados, total.value);
  }

  /**
   * One step of a run: a page that ends it leaves its final segment as the
   * rest; a page that continues it joins what was yielded before.
   */
  lemma Avance(objetivo: Corrida, docs: seq<Dict>, starts: seq<int>,
               fetch: int -> Option<Page>, batchSize: int, maxOfertas: Option<int>,
               start: int, total: Option<int>, count: int, p: Paso)
    requires batchSize > 0
    requires p == PasoDe(fetch(start), batchSize, maxOfertas, start, total, count)
    requires objetivo == Anteponer(docs, starts, Paginar(fetch, batchSize, maxOfertas, start, total, count))
    ensures p.Fin? ==> objetivo == Anteponer(docs, starts, p.ultimo)
    ensures p.Sigue? ==>
      && start + batchSize < p.t && (total.Some? ==> p.t == total.value)
      && objetivo == Anteponer(docs + p.docs, starts + [start],
                               Paginar(fetch, batchSize, maxOfertas, start + batchSize, Some(p.t), count + |p.docs|))
  {
    if p.Fin? {
      PaginarFin(fetch, batchSize, maxOfertas, start, total, count);
    } else {
      PaginarSigue(fetch, batchSize, maxOfertas, start, total, count);
      AnteponerAnteponer(docs, starts, p.docs, [start],
        Paginar(fetch, batchSize, maxOfertas, start + batchSize, Some(p.t), count + |p.docs|));
    }
  }

  /** A page that ends the run gives the rest of the run by itself. */
  lemma PaginarFin(fetch: int -> Option<Page>, batchSize: int, maxOfertas: Option<int>,
                   start: int, total: Option<int>, count: int)
    requires batchSize > 0
    requires PasoDe(fetch(start), batchSize, maxOfertas, start, total, count).Fin?
    ensures Paginar(fetch, batchSize, maxOfertas, start, total, count)
            == PasoDe(fetch(start), batchSize, maxOfertas, start, total, count).ultimo
  {
  }

  /** A page that continues the run precedes the run from the next `start`. */
  lemma PaginarSigue(fetch: int -> Option<Page>, batchSize: int, maxOfertas: Option<int>,
                     start: int, total: Option<int>, count: int)
    requires batchSize > 0
    requires PasoDe(fetch(start), batchSize, maxOfertas, start, total, count).Sigue?
    ensures var p := PasoDe(fetch(start), batchSize, maxOfertas, start, total, count);
      Paginar(fetch, batchSize, maxOfertas, start, total, count)
      == Anteponer(p.docs, [start], Paginar(fetch, batchSize, maxOfertas, start + batchSize, Some(p.t), count + |p.docs|))
  {
  }

  /** The docs of a run whose page at `start` is `docs` and continues it. */
  lemma PaginarSigueDocs(fetch: int -> Option<Page>, batchSize: int, maxOfertas: Option<int>,
                         start: int, total: Option<int>, count: int, docs: seq<Dict>, t: int)
    requires batchSize > 0
    requires PasoDe(fetch(start), batchSize, maxOfertas, start, total, count) == Sigue(docs, t)
    ensures Paginar(fetch, batchSize, maxOfertas, start, total, count).docs
            == docs + Paginar(fetch, batchSize, maxOfertas, start + batchSize, Some(t), count + |docs|).docs
  {
    PaginarSigue(fetch, batchSize, maxOfertas, start, total, count);
  }

  lemma AnteponerAnteponer(d1: seq<Dict>, s1: seq<int>, d2: seq<Dict>, s2: seq<int>, rest: Corrida)
    ensures Anteponer(d1, s1, Anteponer(d2, s2, rest)) == Anteponer(d1 + d2, s1 + s2, rest)
  {
    assert d1 + (d2 + rest.docs) == (d1 + d2) + rest.docs;
    assert s1 + (s2 + rest.starts) == (s1 + s2) + rest.starts;
  }

  /**
   * The inner `for doc in docs` loop: yields docs of one page, counting them,
   * and returns as soon as the count reaches a limit in force.
   */
  method TomarPagina(page: seq<Dict>, count: int, maxOfertas: Option<int>)
    returns (tomados: seq<Dict>, limite: bool)
    requires page != []
    ensures limite == (Limitado(maxOfertas) && |page| >= Cupo(maxOfertas.value, count))
    ensures tomados == if limite then page[..Cupo(maxOfertas.value, count)] else page
  {
    tomados := [];
    var ofertasExtraidas := count;
    var i := 0;
    while i < |page|
      invariant 0 <= i <= |page|
      invariant tomados == page[..i]
      invariant ofertasExtraidas == count + i
      invariant Limitado(maxOfertas) ==> i < Cupo(maxOfertas.value, count)
    {
      tomados := tomados + [page[i]];
      ofertasExtraidas := ofertasExtraidas + 1;
      if Limitado(maxOfertas) && ofertasExtraidas >= maxOfertas.value {
        return tomados, true;
      }
      i := i + 1;
    }
    assert page[..i] == page;
    return tomados, false;
  }

  /** Request `k` of a run asks for `start` k * batch_size. */
  lemma StartsAvanzan(fetch: int -> Option<Page>, batchSize: int, maxOfertas: Option<int>,
                      start: int, total: Option<int>, count: int)
    requires batchSize > 0
    ensures var r := Paginar(fetch, batchSize, maxOfertas, start, total, count);
      && |r.starts| >= 1
      && forall k :: 0 <= k < |r.starts| ==> r.starts[k] == start + k * batchSize
    decreases if total.None? then 1 else 0, Measure(total, start)
  {
    var p := PasoDe(fetch(start), batchSize, maxOfertas, start, total, count);
    if p.Sigue? {
      var rest := Paginar(fetch, batchSize, maxOfertas, start + batchSize, Some(p.t), count + |p.docs|);
      StartsAvanzan(fetch, batchSize, maxOfertas, start + batchSize, Some(p.t), count + |p.docs|);
      var r := Paginar(fetch, batchSize, maxOfertas, start, total, count);
      assert r.starts == [start] + rest.starts;
      forall k | 0 <= k < |r.starts|
        ensures r.starts[k] == start + k * batchSize
      {
        if k > 0 {
          assert r.starts[k] == rest.starts[k - 1];
        }
      }
    }
  }

  /** The requests of a whole run start at 0, batch_size, 2 * batch_size, ... */
  lemma ExtraccionStarts(src: PageSource, batchSize: int, maxOfertas: Option<int>, filtros: Option<Filtros>)
    requires batchSize > 0
    ensures var r := Extraccion(src, batchSize, maxOfertas, filtros);
      && |r.starts| >= 1
      && forall k :: 0 <= k < |r.starts| ==> r.starts[k] == k * batchSize
  {
    StartsAvanzan(Pedidos(src, batchSize, filtros), batchSize, maxOfertas, 0, None, 0);
  }

  /** Once taken, the total snapshot is never replaced by a later page's numFound. */
  lemma TotalFijo(fetch: int -> Option<Page>, batchSize: int, maxOfertas: Option<int>,
                  start: int, t: int, count: int)
    requires batchSize > 0
    ensures Paginar(fetch, batchSize, maxOfertas, start, Some(t), count).total == Some(t)
    decreases Measure(Some(t), start)
  {
    var p := PasoDe(fetch(start), batchSize, maxOfertas, start, Some(t), count);
    if p.Sigue? {
      TotalFijo(fetch, batchSize, maxOfertas, start + batchSize, t, count + |p.docs|);
    }
  }

  /**
   * The total of a run is the numFound of the first page; a first page
   * without numFound ends the run with the KeyError.
   */
  lemma TotalDePrimeraPagina(src: PageSource, batchSize: int, maxOfertas: Option<int>, filtros: Option<Filtros>)
    requires batchSize > 0
    ensures var first := src(ParamsFor(0, batchSize, filtros));
      var r := Extraccion(src, batchSize, maxOfertas, filtros);
      first.Some? && first.value.response.Some? ==>
        if first.value.response.value.numFound.Some? then r.total == first.value.response.value.numFound
        else r.parada == SinNumFound && r.docs == []
  {
    var fetch := Pedidos(src, batchSize, filtros);
    assert fetch(0) == src(ParamsFor(0, batchSize, filtros));
    var p := PasoDe(fetch(0), batchSize, maxOfertas, 0, None, 0);
    if p.Sigue? {
      TotalFijo(fetch, batchSize, maxOfertas, batchSize, p.t, |p.docs|);
    }
  }

  /** `s` cut to at most `n` elements. */
  function Take<T>(s: seq<T>, n: int): seq<T>
  {
    if n < 0 then [] else if |s| <= n then s else s[..n]
  }

  lemma TakeAppend<T>(a: seq<T>, b: seq<T>, n: int)
    requires |a| <= n
    ensures Take(a + b, n) == a + Take(b, n - |a|)
  {
    if |a + b| > n {
      assert (a + b)[..n] == a + b[..n - |a|];
    }
  }

  /**
   * On one page, a limit either changes nothing (the run goes on) or ends the
   * run with the first Cupo docs the unlimited step yields.
   */
  lemma PasoLimitado(page: Option<Page>, batchSize: int, m: int, start: int, total: Option<int>, count: int)
    requires batchSize > 0 && m != 0 && 0 <= count && (count < m || count == 0)
    ensures var l := PasoDe(page, batchSize, Some(m), start, total, count);
      var u := PasoDe(page, batchSize, None, start, total, count);
      && (l.Sigue? ==> u == l && 0 < |l.docs| < Cupo(m, count) && count + |l.docs| < m)
      && (l.Fin? && u.Fin? ==> l.ultimo.docs == Take(u.ultimo.docs, Cupo(m, count)))
      && (l.Fin? && u.Sigue? ==> Cupo(m, count) <= |u.docs| && l.ultimo.docs == u.docs[..Cupo(m, count)])
  {
  }

  /**
   * From any point, a limited run yields the first Cupo docs an unlimited run
   * would yield from there (all of them when there are fewer).
   */
  lemma {:induction false} LimitePrefijo(fetch: int -> Option<Page>, batchSize: int, m: int,
                                         start: int, total: Option<int>, count: int)
    requires batchSize > 0 && m != 0 && 0 <= count && (count < m || count == 0)
    ensures Paginar(fetch, batchSize, Some(m), start, total, count).docs
            == Take(Paginar(fetch, batchSize, None, start, total, count).docs, Cupo(m, count))
    decreases if total.None? then 1 else 0, Measure(total, start)
  {
    var l := PasoDe(fetch(start), batchSize, Some(m), start, total, count);
    PasoLimitado(fetch(start), batchSize, m, start, total, count);
    if l.Fin? {
      LimiteFin(fetch, batchSize, m, start, total, count);
    } else {
      LimitePrefijo(fetch, batchSize, m, start + batchSize, Some(l.t), count + |l.docs|);
      LimiteSigue(fetch, batchSize, m, start, total, count);
    }
  }

  /** LimitePrefijo on a page that ends the limited run. */
  lemma LimiteFin(fetch: int -> Option<Page>, batchSize: int, m: int,
                  start: int, total: Option<int>, count: int)
    requires batchSize > 0 && m != 0 && 0 <= count && (count < m || count == 0)
    requires PasoDe(fetch(start), batchSize, Some(m), start, total, count).Fin?
    ensures Paginar(fetch, batchSize, Some(m), start, total, count).docs
            == Take(Paginar(fetch, batchSize, None, start, total, count).docs, Cupo(m, count))
  {
    var u := PasoDe(fetch(start), batchSize, None, start, total, count);
    var n := Cupo(m, count);
    PasoLimitado(fetch(start), batchSize, m, start, total, count);
    PaginarFin(fetch, batchSize, Some(m), start, total, count);
    if u.Sigue? {
      PaginarSigue(fetch, batchSize, None, start, total, count);
      var rest := Paginar(fetch, batchSize, None, start + batchSize, Some(u.t), count + |u.docs|);
      assert Take(u.docs + rest.docs, n) == (u.docs + rest.docs)[..n] == u.docs[..n];
    } else {
      PaginarFin(fetch, batchSize, None, start, total, count);
    }
  }

  /** LimitePrefijo on a page that continues both runs, given it for the rest. */
  lemma LimiteSigue(fetch: int -> Option<Page>, batchSize: int, m: int,
                    start: int, total: Option<int>, count: int)
    requires batchSize > 0 && m != 0 && 0 <= count && (count < m || count == 0)
    requires var l := PasoDe(fetch(start), batchSize, Some(m), start, total, count);
      && l.Sigue?
      && Paginar(fetch, batchSize, Some(m), start + batchSize, Some(l.t), count + |l.docs|).docs
         == Take(Paginar(fetch, batchSize, None, start + batchSize, Some(l.t), count + |l.docs|).docs,
                 Cupo(m, count + |l.docs|))
    ensures Paginar(fetch, batchSize, Some(m), start, total, count).docs
            == Take(Paginar(fetch, batchSize, None, start, total, count).docs, Cupo(m, count))
  {
    var l := PasoDe(fetch(start), batchSize, Some(m), start, total, count);
    var n := Cupo(m, count);
    PasoLimitado(fetch(start), batchSize, m, start, total, count);
    var limRest := Paginar(fetch, batchSize, Some(m), start + batchSize, Some(l.t), count + |l.docs|).docs;
    var unlRest := Paginar(fetch, batchSize, None, start + batchSize, Some(l.t), count + |l.docs|).docs;
    PaginarSigueDocs(fetch, batchSize, Some(m), start, total, count, l.docs, l.t);
    PaginarSigueDocs(fetch, batchSize, None, start, total, count, l.docs, l.t);
    assert Cupo(m, count + |l.docs|) == n - |l.docs|;
    TakeTras(Paginar(fetch, batchSize, Some(m), start, total, count).docs,
             Paginar(fetch, batchSize, None, start, total, count).docs, l.docs, limRest, unlRest, n);
  }

  /** A common prefix within the cut passes through Take. */
  lemma TakeTras<T>(a: seq<T>, b: seq<T>, p: seq<T>, ra: seq<T>, rb: seq<T>, n: int)
    requires a == p + ra && b == p + rb && |p| <= n && ra == Take(rb, n - |p|)
    ensures a == Take(b, n)
  {
    TakeAppend(p, rb, n);
  }

  /**
   * A non-zero `max_ofertas` m yields exactly the first m docs of the
   * unlimited run (all of them when there are fewer); a negative one yields
   * at most the first doc.
   */
  lemma ExtraccionLimitada(src: PageSource, batchSize: int, m: int, filtros: Option<Filtros>)
    requires batchSize > 0 && m != 0
    ensures Extraccion(src, batchSize, Some(m), filtros).docs
            == Take(Extraccion(src, batchSize, None, filtros).docs, if m > 0 then m else 1)
  {
    LimitePrefijo(Pedidos(src, batchSize, filtros), batchSize, m, 0, None, 0);
  }

  /** A zero `max_ofertas` is falsy: it imposes no limit. */
  lemma {:induction false} LimiteCero(fetch: int -> Option<Page>, batchSize: int,
                                      start: int, total: Option<int>, count: int)
    requires batchSize > 0
    ensures Paginar(fetch, batchSize, Some(0), start, total, count)
            == Paginar(fetch, batchSize, None, start, total, count)
    decreases if total.None? then 1 else 0, Measure(total, start)
  {
    var p := PasoDe(fetch(start), batchSize, None, start, total, count);
    assert PasoDe(fetch(start), batchSize, Some(0), start, total, count) == p;
    if p.Sigue? {
      LimiteCero(fetch, batchSize, start + batchSize, Some(p.t), count + |p.docs|);
    }
  }

  /** The page a remote holding exactly `d` answers for `start`. */
  function Ventana(d: seq<Dict>, start: int, batchSize: int): Option<Page>
    requires 0 <= start <= |d| && batchSize > 0
  {
    Some(Page(Some(Response(Some(|d|), d[start..if start + batchSize < |d| then start + batchSize else |d|]))))
  }

  /** A remote whose records are `d`, stable for the whole run. */
  predicate Coherente(fetch: int -> Option<Page>, d: seq<Dict>, batchSize: int)
    requires batchSize > 0
  {
    forall s :: 0 <= s <= |d| ==> fetch(s) == Ventana(d, s, batchSize)
  }

  /** ceil(n / b): how many pages of `b` records hold `n` records (n > 0). */
  function Peticiones(n: int, b: int): (k: int)
    requires n > 0 && b > 0
    ensures k >= 1
    decreases n
  {
    if n <= b then 1 else 1 + Peticiones(n - b, b)
  }

  /** Peticiones is the ceiling of the quotient. */
  lemma {:induction false} PeticionesTecho(n: int, b: int)
    requires n > 0 && b > 0
    ensures (Peticiones(n, b) - 1) * b < n <= Peticiones(n, b) * b
    decreases n
  {
    if n > b {
      PeticionesTecho(n - b, b);
      var k := Peticiones(n - b, b);
      assert (k + 1) * b == k * b + b;
    }
  }

  /** The page that reaches the end of a stable remote's records ends the run. */
  lemma CompletaUltima(fetch: int -> Option<Page>, d: seq<Dict>, batchSize: int, start: int, count: int)
    requires batchSize > 0 && Coherente(fetch, d, batchSize) && 0 <= start < |d| <= start + batchSize
    ensures Paginar(fetch, batchSize, None, start, Some(|d|), count) == Corrida(d[start..], [start], Some(|d|), Agotado)
  {
    assert fetch(start) == Ventana(d, start, batchSize);
    assert d[start..|d|] == d[start..];
    assert PasoDe(fetch(start), batchSize, None, start, Some(|d|), count) == Fin(Corrida(d[start..], [start], Some(|d|), Agotado));
    PaginarFin(fetch, batchSize, None, start, Some(|d|), count);
  }

  lemma {:induction false} CompletaDesde(fetch: int -> Option<Page>, d: seq<Dict>, batchSize: int,
                                         start: int, count: int)
    requires batchSize > 0 && Coherente(fetch, d, batchSize) && 0 <= start < |d|
    ensures var r := Paginar(fetch, batchSize, None, start, Some(|d|), count);
      && r.docs == d[start..]
      && r.parada == Agotado
      && |r.starts| == Peticiones(|d| - start, batchSize)
    decreases |d| - start
  {
    if start + batchSize < |d| {
      assert fetch(start) == Ventana(d, start, batchSize);
      var docs := d[start..start + batchSize];
      assert PasoDe(fetch(start), batchSize, None, start, Some(|d|), count) == Sigue(docs, |d|);
      PaginarSigue(fetch, batchSize, None, start, Some(|d|), count);
      CompletaDesde(fetch, d, batchSize, start + batchSize, count + |docs|);
      var rest := Paginar(fetch, batchSize, None, start + batchSize, Some(|d|), count + |docs|);
      assert d[start..] == docs + d[start + batchSize..];
    } else {
      CompletaUltima(fetch, d, batchSize, start, count);
    }
  }

  /**
   * Against a stable remote holding `d`, an unlimited run yields every record
   * in order, with numFound as its total, in ceil(|d| / batch_size) requests
   * (a single one when there are no records).
   */
  lemma ExtraccionCompleta(src: PageSource, batchSize: int, filtros: Option<Filtros>, d: seq<Dict>)
    requires batchSize > 0 && Coherente(Pedidos(src, batchSize, filtros), d, batchSize)
    ensures var r := Extraccion(src, batchSize, None, filtros);
      && r.docs == d
      && r.total == Some(|d|)
      && r.parada == (if d == [] then PaginaVacia else Agotado)
      && (if d == [] then |r.starts| == 1 else (|r.starts| - 1) * batchSize < |d| <= |r.starts| * batchSize)
  {
    var fetch := Pedidos(src, batchSize, filtros);
    assert fetch(0) == Ventana(d, 0, batchSize);
    if d != [] {
      if batchSize < |d| {
        CompletaDesde(fetch, d, batchSize, batchSize, if batchSize < |d| then batchSize else |d|);
        TotalFijo(fetch, batchSize, None, batchSize, |d|, batchSize);
        assert d == d[0..batchSize] + d[batchSize..];
        PeticionesTecho(|d|, batchSize);
      } else {
        assert d[0..|d|] == d;
        PeticionesTecho(|d|, batchSize);
      }
    }
  }

  /**
   * One page of a stable remote under a positive limit, asked below both the
   * limit and the end: the run goes on exactly when the page ends before both.
   */
  lemma PasoVentana(d: seq<Dict>, batchSize: int, m: int, start: int, total: Option<int>)
    requires batchSize > 0 && 0 <= start < |d| && start < m && (total.None? || total == Some(|d|))
    ensures var p := PasoDe(Ventana(d, start, batchSize), batchSize, Some(m), start, total, start);
      && (p.Sigue? <==> start + batchSize < |d| && start + batchSize < m)
      && (p.Sigue? ==> p.docs == d[start..start + batchSize] && p.t == |d|)
      && (p.Fin? ==> p.ultimo.starts == [start])
  {
  }

  /**
   * From a request below both the limit and the end of a stable remote, a
   * limited run issues one request per page up to the page that reaches
   * whichever comes first.
   */
  lemma {:induction false} LimitadaDesde(fetch: int -> Option<Page>, d: seq<Dict>, batchSize: int, m: int,
                                         start: int, total: Option<int>)
    requires batchSize > 0 && Coherente(fetch, d, batchSize) && 0 <= start < |d| && start < m
    requires total.None? || total == Some(|d|)
    ensures |Paginar(fetch, batchSize, Some(m), start, total, start).starts|
            == Peticiones((if m < |d| then m else |d|) - start, batchSize)
    decreases |d| - start
  {
    var n := (if m < |d| then m else |d|) - start;
    assert fetch(start) == Ventana(d, start, batchSize);
    PasoVentana(d, batchSize, m, start, total);
    var p := PasoDe(fetch(start), batchSize, Some(m), start, total, start);
    if p.Sigue? {
      PaginarSigue(fetch, batchSize, Some(m), start, total, start);
      LimitadaDesde(fetch, d, batchSize, m, start + batchSize, Some(|d|));
      assert n > batchSize && Peticiones(n, batchSize) == 1 + Peticiones(n - batchSize, batchSize);
    } else {
      PaginarFin(fetch, batchSize, Some(m), start, total, start);
      assert n <= batchSize;
    }
  }

  /**
   * Against a stable remote holding `d`, a positive `max_ofertas` m yields
   * the first min(m, |d|) records in ceil(min(m, |d|) / batch_size) requests:
   * the run returns on the page where the count reaches m.
   */
  lemma ExtraccionLimitadaPeticiones(src: PageSource, batchSize: int, filtros: Option<Filtros>, d: seq<Dict>, m: int)
    requires batchSize > 0 && Coherente(Pedidos(src, batchSize, filtros), d, batchSize) && d != [] && m > 0
    ensures var r := Extraccion(src, batchSize, Some(m), filtros);
      var n := if m < |d| then m else |d|;
      && r.docs == d[..n]
      && |r.starts| == Peticiones(n, batchSize)
  {
    LimitadaDesde(Pedidos(src, batchSize, filtros), d, batchSize, m, 0, None);
    ExtraccionLimitada(src, batchSize, m, filtros);
    ExtraccionCompleta(src, batchSize, filtros, d);
  }

  /** The `filtros` argument as it is written into the metadata. */
  function FiltrosJson(filtros: Option<Filtros>): Json
  {
    if filtros.None? then JNull else JObj(map k | k in filtros.value :: JStr(filtros.value[k]))
  }

  /** The document `save_to_json` writes. */
  function Archivo(ofertas: seq<Dict>, fecha: string, filtros: Option<Filtros>): Json
  {
    JObj(map[
      "metadata" := JObj(map[
        "total_ofertas" := JNum(|ofertas| as real),
        "fecha_extraccion" := JStr(fecha),
        "filtros" := FiltrosJson(filtros)]),
      "ofertas" := JArr(seq(|ofertas|, i requires 0 <= i < |ofertas| => JObj(ofertas[i])))])
  }

  /** The count in a written file's metadata is the number of offers it holds. */
  lemma ArchivoConsistente(ofertas: seq<Dict>, fecha: string, filtros: Option<Filtros>)
    ensures var a := Archivo(ofertas, fecha, filtros);
      && a.JObj? && "metadata" in a.fields && "ofertas" in a.fields
      && a.fields["metadata"].JObj? && "total_ofertas" in a.fields["metadata"].fields
      && a.fields["ofertas"].JArr?
      && a.fields["metadata"].fields["total_ofertas"] == JNum(|a.fields["ofertas"].items| as real)
      && forall i :: 0 <= i < |ofertas| ==> a.fields["ofertas"].items[i] == JObj(ofertas[i])
  {
  }

  /**
   * `save_to_json`: collects a run with the default batch of 100 and writes
   * it under `filename`, stamped with `fecha` (the clock reading). A first
   * page without numFound aborts with the KeyError and writes nothing.
   */
  method SaveToJson(src: PageSource, files: Files, filename: string, filtros: Option<Filtros>,
                    maxOfertas: Option<int>, fecha: string) returns (r: Result<Files, Error>)
    ensures var run := Extraccion(src, 100, maxOfertas, filtros);
      if run.parada == SinNumFound then r == Failure(KeyError("numFound"))
      else r == Success(files[filename := Archivo(run.docs, fecha, filtros)])
  {
    var run := GetAllOfertas(src, 100, maxOfertas, filtros);
    if run.parada == SinNumFound {
      return Failure(KeyError("numFound"));
    }
    var ofertas: seq<Dict> := [];
    for i := 0 to |run.docs|
      invariant ofertas == run.docs[..i]
    {
      ofertas := ofertas + [run.docs[i]];
    }
    assert run.docs[..|run.docs|] == run.docs;
    r := Success(files[filename := Archivo(ofertas, fecha, filtros)]);
  }
}
