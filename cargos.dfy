/**
 * The catalog of known teaching positions (cargos.py): the immutable `Cargo`
 * record with its case-insensitive predicates, its dict form, and
 * `CargoRepository`, an ordered list of cargos with loaders, persistence and
 * queries.
 */
module Cargos {
  import opened Wrappers
  import opened Json
  import opened Text
  import Seqs

  /** A catalog entry; `valor` is kept as the JSON value it was read from. */
  datatype Cargo = Cargo(modalidad: string, codigo: string, area: string, valor: Json)

  /** Default `valor` when a dict has none. */
  const ValorPorDefecto: Json := JNum(1.0)

  /** `palabra` occurs in the area, ignoring case. */
  predicate Contiene(c: Cargo, palabra: string)
  {
    ContainsIgnoreCase(c.area, palabra)
  }

  predicate EsModalidad(c: Cargo, modalidad: string)
  {
    EqualsIgnoreCase(c.modalidad, modalidad)
  }

  predicate EsCodigo(c: Cargo, codigo: string)
  {
    EqualsIgnoreCase(c.codigo, codigo)
  }

  /** `contiene` is substring search on the case-folded area and word. */
  lemma ContieneMeaning(c: Cargo, palabra: string)
    ensures Contiene(c, palabra) <==> exists i :: OccursAt(Lower(c.area), Lower(palabra), i)
  {
    assert Contiene(c, palabra) == Contains(Lower(c.area), Lower(palabra));
    ContainsAt(Lower(c.area), Lower(palabra));
  }

  /** `es_modalidad` and `es_codigo` compare character by character after case folding. */
  lemma EsModalidadEsCodigoMeaning(c: Cargo, s: string)
    ensures EsModalidad(c, s) <==>
      |c.modalidad| == |s| && forall i :: 0 <= i < |s| ==> LowerChar(c.modalidad[i]) == LowerChar(s[i])
    ensures EsCodigo(c, s) <==>
      |c.codigo| == |s| && forall i :: 0 <= i < |s| ==> LowerChar(c.codigo[i]) == LowerChar(s[i])
  {
    EqualsIgnoreCaseCharwise(c.modalidad, s);
    EqualsIgnoreCaseCharwise(c.codigo, s);
  }

  /** `asdict(cargo)`. */
  function ToDict(c: Cargo): Json
  {
    JObj(map["modalidad" := JStr(c.modalidad), "codigo" := JStr(c.codigo),
             "area" := JStr(c.area), "valor" := c.valor])
  }

  /**
   * `Cargo.from_dict`: a non-dict raises TypeError, a missing key KeyError
   * (checked in the order modalidad, codigo, area), a missing `valor` gives 1.0.
   */
  function FromDict(d: Json): (r: Result<Cargo, Error>)
    ensures r.Success? ==>
              && d.JObj? && "modalidad" in d.fields && "codigo" in d.fields && "area" in d.fields
              && d.fields["modalidad"] == JStr(r.value.modalidad)
              && d.fields["codigo"] == JStr(r.value.codigo)
              && d.fields["area"] == JStr(r.value.area)
    ensures r.Success? && d.JObj? ==>
      r.value.valor == if "valor" in d.fields then d.fields["valor"] else JNum(1.0)
    ensures r.Success? <==>
              && d.JObj? && "modalidad" in d.fields && "codigo" in d.fields && "area" in d.fields
              && d.fields["modalidad"].JStr? && d.fields["codigo"].JStr? && d.fields["area"].JStr?
    ensures d.JObj? && "modalidad" !in d.fields ==> r == Failure(KeyError("modalidad"))
    ensures d.JObj? && "modalidad" in d.fields && "codigo" !in d.fields ==> r == Failure(KeyError("codigo"))
    ensures d.JObj? && "modalidad" in d.fields && "codigo" in d.fields && "area" !in d.fields ==>
              r == Failure(KeyError("area"))
    ensures !d.JObj? ==> r == Failure(TypeError)
  {
    if !d.JObj? then Failure(TypeError)
    else if "modalidad" !in d.fields then Failure(KeyError("modalidad"))
    else if "codigo" !in d.fields then Failure(KeyError("codigo"))
    else if "area" !in d.fields then Failure(KeyError("area"))
    else
      var m, c, a := d.fields["modalidad"], d.fields["codigo"], d.fields["area"];
      if m.JStr? && c.JStr? && a.JStr? then
        Success(Cargo(m.s, c.s, a.s, Get(d.fields, "valor", ValorPorDefecto)))
      else Failure(TypeError)
  }

  /** Reading back a cargo's dict gives the same cargo. */
  lemma FromDictToDict(c: Cargo)
    ensures FromDict(ToDict(c)) == Success(c)
  {
  }

  /** `[Cargo.from_dict(item) for item in items]`: the first bad item aborts. */
  function FromDictAll(items: seq<Json>): (r: Result<seq<Cargo>, Error>)
    ensures r.Success? <==> forall i :: 0 <= i < |items| ==> FromDict(items[i]).Success?
    ensures r.Success? ==>
      |r.value| == |items| && forall i :: 0 <= i < |items| ==> FromDict(items[i]) == Success(r.value[i])
  {
    if items == [] then Success([])
    else
      var c :- FromDict(items[0]);
      var rest :- FromDictAll(items[1..]);
      Success([c] + rest)
  }

  /** The dict form of a list of cargos. */
  function ToDicts(cs: seq<Cargo>): (r: seq<Json>)
    ensures |r| == |cs| && forall i :: 0 <= i < |cs| ==> r[i] == ToDict(cs[i])
  {
    seq(|cs|, i requires 0 <= i < |cs| => ToDict(cs[i]))
  }

  lemma {:induction false} FromDictAllToDicts(cs: seq<Cargo>)
    ensures FromDictAll(ToDicts(cs)) == Success(cs)
    decreases |cs|
  {
    if cs != [] {
      FromDictToDict(cs[0]);
      FromDictAllToDicts(cs[1..]);
      assert ToDicts(cs)[1..] == ToDicts(cs[1..]);
      assert cs == [cs[0]] + cs[1..];
    }
  }

  /**
   * What a Python `for` loop sees when iterating a JSON value: a list gives its
   * items, a string its characters, an empty dict nothing; a non-empty dict
   * gives its keys, which `from_dict` always rejects, so it is a TypeError here;
   * null, booleans and numbers are not iterable.
   */
  function Elements(j: Json): Result<seq<Json>, Error>
  {
    match j
    case JArr(items) => Success(items)
    case JStr(s) => Success(seq(|s|, i requires 0 <= i < |s| => JStr([s[i]])))
    case JObj(fields) => if fields == map[] then Success([]) else Failure(TypeError)
    case _ => Failure(TypeError)
  }

  /** The cargos of one group of a catalog file. */
  function Group(j: Json): Result<seq<Cargo>, Error>
  {
    var items :- Elements(j);
    FromDictAll(items)
  }

  /** The format-detecting part of `load_from_file`, on the parsed root. */
  function CatalogFromRoot(data: Json): (r: Result<seq<Cargo>, Error>)
    ensures data.JArr? ==>
      (r.Success? <==> forall i :: 0 <= i < |data.items| ==> FromDict(data.items[i]).Success?)
    ensures data.JArr? && r.Success? ==>
      |r.value| == |data.items| &&
      forall i :: 0 <= i < |data.items| ==> FromDict(data.items[i]) == Success(r.value[i])
    ensures data.JObj? && "habilitantes" !in data.fields && "bonificantes" !in data.fields ==> r == Success([])
    ensures !data.JArr? && !data.JObj? ==> r == Success([])
  {
    match data
    case JArr(items) => FromDictAll(items)
    case JObj(fields) =>
      var h :- if "habilitantes" in fields then Group(fields["habilitantes"]) else Success([]);
      var b :- if "bonificantes" in fields then Group(fields["bonificantes"]) else Success([]);
      Success(h + b)
    case _ => Success([])
  }

  /**
   * A grouped catalog loads as its `habilitantes` followed by its
   * `bonificantes`, every entry kept (no de-duplication); a group that is
   * absent counts as an empty list. It loads iff every entry of both groups
   * converts, and otherwise fails with the first failing entry's error,
   * `habilitantes` first.
   */
  lemma GroupedCatalogOrder(data: Json, hs: seq<Json>, bs: seq<Json>)
    requires data.JObj?
    requires "habilitantes" in data.fields ==> data.fields["habilitantes"] == JArr(hs)
    requires "habilitantes" !in data.fields ==> hs == []
    requires "bonificantes" in data.fields ==> data.fields["bonificantes"] == JArr(bs)
    requires "bonificantes" !in data.fields ==> bs == []
    ensures CatalogFromRoot(data).Success? <==>
              (forall i :: 0 <= i < |hs| ==> FromDict(hs[i]).Success?)
              && (forall i :: 0 <= i < |bs| ==> FromDict(bs[i]).Success?)
    ensures CatalogFromRoot(data).Failure? ==>
              CatalogFromRoot(data).error
              == (if FromDictAll(hs).Failure? then FromDictAll(hs).error else FromDictAll(bs).error)
    ensures CatalogFromRoot(data).Success? ==>
              var r := CatalogFromRoot(data).value;
              |r| == |hs| + |bs|
              && (forall i :: 0 <= i < |hs| ==> FromDict(hs[i]) == Success(r[i]))
              && (forall i :: 0 <= i < |bs| ==> FromDict(bs[i]) == Success(r[|hs| + i]))
  {
    CatalogoAgrupado(data, hs, bs);
    GruposSeguidos(hs, bs);
  }

  /** Two groups converted one after the other: the conversion of their concatenation, group by group. */
  lemma GruposSeguidos(hs: seq<Json>, bs: seq<Json>)
    ensures var h, b := FromDictAll(hs), FromDictAll(bs);
      (h.Success? && b.Success? <==>
         (forall i :: 0 <= i < |hs| ==> FromDict(hs[i]).Success?)
         && (forall i :: 0 <= i < |bs| ==> FromDict(bs[i]).Success?))
      && (h.Success? && b.Success? ==>
            var r := h.value + b.value;
            |r| == |hs| + |bs|
            && (forall i :: 0 <= i < |hs| ==> FromDict(hs[i]) == Success(r[i]))
            && (forall i :: 0 <= i < |bs| ==> FromDict(bs[i]) == Success(r[|hs| + i])))
  {
    var h, b := FromDictAll(hs), FromDictAll(bs);
    if h.Success? && b.Success? {
      var r := h.value + b.value;
      forall i | 0 <= i < |hs|
        ensures FromDict(hs[i]) == Success(r[i])
      {
        assert r[i] == h.value[i];
      }
      forall i | 0 <= i < |bs|
        ensures FromDict(bs[i]) == Success(r[|hs| + i])
      {
        assert r[|hs| + i] == b.value[i];
      }
    }
  }

  /** A dict root loads as the conversion of its first group, then of its second. */
  lemma CatalogoAgrupado(data: Json, hs: seq<Json>, bs: seq<Json>)
    requires data.JObj?
    requires "habilitantes" in data.fields ==> data.fields["habilitantes"] == JArr(hs)
    requires "habilitantes" !in data.fields ==> hs == []
    requires "bonificantes" in data.fields ==> data.fields["bonificantes"] == JArr(bs)
    requires "bonificantes" !in data.fields ==> bs == []
    ensures CatalogFromRoot(data) ==
              var h, b := FromDictAll(hs), FromDictAll(bs);
              if h.Failure? then Failure(h.error) else if b.Failure? then Failure(b.error)
              else Success(h.value + b.value)
  {
    assert (if "habilitantes" in data.fields then Group(data.fields["habilitantes"]) else Success([])) == FromDictAll(hs);
    assert (if "bonificantes" in data.fields then Group(data.fields["bonificantes"]) else Success([])) == FromDictAll(bs);
  }

  /** Saving a list of cargos in the flat shape and loading it back gives the same list. */
  lemma FlatCatalogRoundTrip(cs: seq<Cargo>)
    ensures CatalogFromRoot(JArr(ToDicts(cs))) == Success(cs)
  {
    FromDictAllToDicts(cs);
  }

  /** The cargos of one modalidad, ignoring case, in catalog order. */
  function DeModalidad(cargos: seq<Cargo>, modalidad: string): (r: seq<Cargo>)
    ensures forall c :: c in r <==> c in cargos && EsModalidad(c, modalidad)
    ensures forall c :: multiset(r)[c] == if EsModalidad(c, modalidad) then multiset(cargos)[c] else 0
    ensures Seqs.IsSubseq(r, cargos)
  {
    var p := (c: Cargo) => EsModalidad(c, modalidad);
    Seqs.FilterMultiset(cargos, p);
    Seqs.FilterSubseq(cargos, p);
    Seqs.Filter(cargos, p)
  }

  /** What `CargoRepository.load_from_file` loads. */
  function CatalogoDeArchivo(files: Files, path: string): Result<seq<Cargo>, Error>
  {
    if path !in files then Failure(FileNotFound(path)) else CatalogFromRoot(files[path])
  }

  /** The grouped shape written by the HTML importer loads as both groups in order. */
  lemma GroupedCatalogRoundTrip(hs: seq<Cargo>, bs: seq<Cargo>, metadata: Json)
    ensures CatalogFromRoot(JObj(map["metadata" := metadata, "habilitantes" := JArr(ToDicts(hs)),
                                     "bonificantes" := JArr(ToDicts(bs))])) == Success(hs + bs)
  {
    FromDictAllToDicts(hs);
    FromDictAllToDicts(bs);
  }

  /** The test `buscar_por_palabra` applies to each cargo. */
  predicate CoincidePalabra(c: Cargo, palabra: string)
  {
    ContainsIgnoreCase(c.area, palabra) || ContainsIgnoreCase(c.codigo, palabra)
    || ContainsIgnoreCase(c.modalidad, palabra)
  }

  /** The first cargo whose code equals `codigo`, ignoring case. */
  function CargoConCodigo(cargos: seq<Cargo>, codigo: string): Option<Cargo>
  {
    Seqs.Find(cargos, (c: Cargo) => EsCodigo(c, codigo))
  }

  /** The first cargo whose area equals `area`, ignoring case. */
  function CargoConArea(cargos: seq<Cargo>, area: string): Option<Cargo>
  {
    Seqs.Find(cargos, (c: Cargo) => EqualsIgnoreCase(c.area, area))
  }

  function Modalidades(cargos: seq<Cargo>): (r: seq<string>)
    ensures |r| == |cargos| && forall i :: 0 <= i < |cargos| ==> r[i] == cargos[i].modalidad
  {
    seq(|cargos|, i requires 0 <= i < |cargos| => cargos[i].modalidad)
  }

  function Codigos(cargos: seq<Cargo>): (r: seq<string>)
    ensures |r| == |cargos| && forall i :: 0 <= i < |cargos| ==> r[i] == cargos[i].codigo
  {
    seq(|cargos|, i requires 0 <= i < |cargos| => cargos[i].codigo)
  }

  class CargoRepository {
    var cargos: seq<Cargo>
    var filepath: Option<string>

    constructor (cargos: seq<Cargo>, filepath: Option<string>)
      ensures this.cargos == cargos && this.filepath == filepath
    {
      this.cargos := cargos;
      this.filepath := filepath;
    }

    /**
     * `load_from_file`: a missing file raises; a list root gives one cargo per
     * element, a dict root its `habilitantes` then its `bonificantes`, any
     * other root an empty repository.
     */
    static method LoadFromFile(path: string, files: Files) returns (r: Result<CargoRepository, Error>)
      ensures path !in files ==> r == Failure(FileNotFound(path))
      ensures path in files ==> (r.Success? <==> CatalogFromRoot(files[path]).Success?)
      ensures path in files && r.Failure? ==> CatalogFromRoot(files[path]) == Failure(r.error)
      ensures r.Success? ==>
                && fresh(r.value) && r.value.filepath == Some(path)
                && r.value.cargos == CatalogFromRoot(files[path]).value
    {
      if path !in files {
        return Failure(FileNotFound(path));
      }
      var data := files[path];
      var cargos: seq<Cargo> := [];
      match data {
        case JArr(items) =>
          var all := FromDictAll(items);
          if all.Failure? {
            return Failure(all.error);
          }
          cargos := all.value;
        case JObj(fields) =>
          if "habilitantes" in fields {
            var h := Group(fields["habilitantes"]);
            if h.Failure? {
              return Failure(h.error);
            }
            cargos := cargos + h.value;
          }
          if "bonificantes" in fields {
            var b := Group(fields["bonificantes"]);
            if b.Failure? {
              return Failure(b.error);
            }
            cargos := cargos + b.value;
          }
        case _ =>
      }
      var repo := new CargoRepository(cargos, Some(path));
      return Success(repo);
    }

    /**
     * `load`: reads the list at `filepath`; a missing file gives the empty
     * list, an unset path raises TypeError (from `open(None)`). A root that
     * is not a list is iterated as Python would: an empty dict or string
     * yields nothing, anything else fails in `from_dict` or in the iteration.
     */
    function Load(files: Files): (r: Result<seq<Cargo>, Error>)
      reads this
      ensures filepath.None? ==> r == Failure(TypeError)
      ensures filepath.Some? && filepath.value !in files ==> r == Success([])
      ensures filepath.Some? && filepath.value in files && files[filepath.value].JArr? ==>
        r == FromDictAll(files[filepath.value].items)
      ensures filepath.Some? && filepath.value in files && !files[filepath.value].JArr? ==>
        r == if files[filepath.value] in {JObj(map[]), JStr("")} then Success([]) else Failure(TypeError)
    {
      if filepath.None? then Failure(TypeError)
      else if filepath.value !in files then Success([])
      else
        var items :- Elements(files[filepath.value]);
        FromDictAll(items)
    }

    /** `save`: writes the list of dicts to `filepath`; an unset or empty path raises ValueError. */
    function Save(files: Files): (r: Result<Files, Error>)
      reads this
      ensures r.Failure? <==> filepath.None? || filepath.value == ""
      ensures r.Failure? ==> r.error == ValueError
      ensures r.Success? ==>
                && r.value.Keys == files.Keys + {filepath.value}
                && r.value[filepath.value] == JArr(ToDicts(cargos))
                && forall p :: p in files && p != filepath.value ==> r.value[p] == files[p]
    {
      if filepath.None? || filepath.value == "" then Failure(ValueError)
      else Success(files[filepath.value := JArr(ToDicts(cargos))])
    }

    /** What `save` writes, `load` reads back unchanged. */
    lemma SaveThenLoad(files: Files)
      requires Save(files).Success?
      ensures Load(Save(files).value) == Success(cargos)
    {
      FromDictAllToDicts(cargos);
    }

    /** `buscar_por_palabra`: the cargos whose area, code or modalidad contains the word. */
    function BuscarPorPalabra(palabra: string): (r: seq<Cargo>)
      reads this
      ensures forall c :: c in r <==> c in cargos && CoincidePalabra(c, palabra)
      ensures forall c :: multiset(r)[c] == if CoincidePalabra(c, palabra) then multiset(cargos)[c] else 0
      ensures Seqs.IsSubseq(r, cargos)
    {
      var p := (c: Cargo) => CoincidePalabra(c, palabra);
      Seqs.FilterMultiset(cargos, p);
      Seqs.FilterSubseq(cargos, p);
      Seqs.Filter(cargos, p)
    }

    /** `buscar_por_modalidad`: the cargos of one modalidad, ignoring case. */
    function BuscarPorModalidad(modalidad: string): (r: seq<Cargo>)
      reads this
      ensures r == DeModalidad(cargos, modalidad)
    {
      DeModalidad(cargos, modalidad)
    }

    /** `buscar_por_codigo`: the first cargo in list order with that code, ignoring case. */
    method BuscarPorCodigo(codigo: string) returns (r: Option<Cargo>)
      ensures r.None? <==> forall i :: 0 <= i < |cargos| ==> !EsCodigo(cargos[i], codigo)
      ensures r.Some? ==> exists i ::
                0 <= i < |cargos| && cargos[i] == r.value && EsCodigo(r.value, codigo)
                && forall j :: 0 <= j < i ==> !EsCodigo(cargos[j], codigo)
      ensures r == CargoConCodigo(cargos, codigo)
    {
      var i := 0;
      while i < |cargos|
        invariant 0 <= i <= |cargos|
        invariant forall j :: 0 <= j < i ==> !EsCodigo(cargos[j], codigo)
      {
        if EsCodigo(cargos[i], codigo) {
          return Some(cargos[i]);
        }
        i := i + 1;
      }
      return None;
    }

    /** `buscar_area_exacta`: the first cargo whose area equals `area`, ignoring case. */
    method BuscarAreaExacta(area: string) returns (r: Option<Cargo>)
      ensures r.None? <==> forall i :: 0 <= i < |cargos| ==> !EqualsIgnoreCase(cargos[i].area, area)
      ensures r.Some? ==> exists i ::
                0 <= i < |cargos| && cargos[i] == r.value && EqualsIgnoreCase(r.value.area, area)
                && forall j :: 0 <= j < i ==> !EqualsIgnoreCase(cargos[j].area, area)
      ensures r == CargoConArea(cargos, area)
    {
      var areaLower := Lower(area);
      var i := 0;
      while i < |cargos|
        invariant 0 <= i <= |cargos|
        invariant forall j :: 0 <= j < i ==> !EqualsIgnoreCase(cargos[j].area, area)
      {
        if Lower(cargos[i].area) == areaLower {
          return Some(cargos[i]);
        }
        i := i + 1;
      }
      return None;
    }

    /** `listar_modalidades`: the distinct modalidades, sorted. */
    function ListarModalidades(): (r: seq<string>)
      reads this
      ensures Sorted(r)
      ensures forall i, j :: 0 <= i < j < |r| ==> r[i] != r[j]
      ensures forall m :: m in r <==> exists c :: c in cargos && c.modalidad == m
    {
      var ms := Modalidades(cargos);
      SortedSet(ms);
      assert forall m :: m in ms <==> exists c :: c in cargos && c.modalidad == m by {
        forall m | m in ms ensures exists c :: c in cargos && c.modalidad == m {
          var i :| 0 <= i < |ms| && ms[i] == m;
          assert cargos[i] in cargos;
        }
      }
      SortStrings(Seqs.Dedup(ms))
    }

    /** `listar_codigos`: every code, duplicates kept, sorted. */
    function ListarCodigos(): (r: seq<string>)
      reads this
      ensures Sorted(r)
      ensures multiset(r) == multiset(Codigos(cargos))
      ensures |r| == |cargos|
    {
      SortStringsCorrect(Codigos(cargos));
      assert |multiset(Codigos(cargos))| == |cargos|;
      SortStrings(Codigos(cargos))
    }

    /** `__len__`: the number of cargos, one per code listed. */
    function Len(): (n: nat)
      reads this
      ensures n == |ListarCodigos()|
    {
      |cargos|
    }
  }

  /** A duplicate-free sequence holds each value at most once. */
  lemma {:induction false} DistinctCountOne(d: seq<string>, x: string)
    requires forall i, j :: 0 <= i < j < |d| ==> d[i] != d[j]
    ensures multiset(d)[x] <= 1
    decreases |d|
  {
    if d != [] {
      assert d == [d[0]] + d[1..];
      DistinctCountOne(d[1..], x);
      if d[0] == x {
        assert x !in d[1..];
      }
    }
  }

  /** A value at two positions occurs at least twice. */
  lemma CountTwo(r: seq<string>, i: int, j: int)
    requires 0 <= i < j < |r| && r[i] == r[j]
    ensures multiset(r)[r[i]] >= 2
  {
    assert r == r[..j] + r[j..];
    assert r[i] in r[..j];
    assert r[j..][0] == r[j];
    assert multiset(r) == multiset(r[..j]) + multiset(r[j..]);
  }

  /** Sorting keeps a list free of repeats. */
  lemma SortDistinct(d: seq<string>)
    requires forall i, j :: 0 <= i < j < |d| ==> d[i] != d[j]
    ensures forall i, j :: 0 <= i < j < |SortStrings(d)| ==> SortStrings(d)[i] != SortStrings(d)[j]
  {
    SortStringsCorrect(d);
    var r := SortStrings(d);
    forall i, j | 0 <= i < j < |r| ensures r[i] != r[j] {
      if r[i] == r[j] {
        CountTwo(r, i, j);
        DistinctCountOne(d, r[i]);
      }
    }
  }

  /** `sorted(set(s))`: sorted, without repeats, with exactly the values of `s`. */
  lemma SortedSet(s: seq<string>)
    ensures Sorted(SortStrings(Seqs.Dedup(s)))
    ensures forall i, j :: 0 <= i < j < |SortStrings(Seqs.Dedup(s))| ==>
              SortStrings(Seqs.Dedup(s))[i] != SortStrings(Seqs.Dedup(s))[j]
    ensures forall m :: m in SortStrings(Seqs.Dedup(s)) <==> m in s
  {
    var d := Seqs.Dedup(s);
    SortStringsCorrect(d);
    SortDistinct(d);
    var r := SortStrings(d);
    assert forall m :: m in r <==> m in multiset(r);
    assert forall m :: m in d <==> m in multiset(d);
  }
}
