/**
 * The catalog importer (parse_cargos_html.py), from the tables onwards: each
 * table is a list of rows of cell texts. A row with at least three cells
 * becomes one cargo: the modalidad from the first cell, the code and the area
 * split out of the second, the score parsed from the third. The first table
 * gives the habilitantes, the second the bonificantes.
 */
module ParseCargosHtml {
  import opened Wrappers
  import opened Json
  import opened Text
  import opened Cargos
  import Seqs

  /** The texts of the `td` cells of one `tr`. */
  type Fila = seq<string>

  /** The rows of one table. */
  type Tabla = seq<Fila>

  /**
   * `float(puntaje)` on a cell text: the parse is a parameter, None standing
   * for its ValueError. Python's float ignores surrounding whitespace, so the
   * parameter takes the cell text before or after stripping alike.
   */
  type Conversor = string -> Option<real>

  // ---------------------------------------------------------------
  // The code pattern `\(([^)]+)\)`, scanned by hand
  // ---------------------------------------------------------------

  /** Index of the first ')' at or after `j`, or `|s|` when there is none. */
  function Cierre(s: string, j: nat): (k: nat)
    requires j <= |s|
    ensures j <= k <= |s|
    ensures forall m :: j <= m < k ==> s[m] != ')'
    ensures k < |s| ==> s[k] == ')'
    decreases |s| - j
  {
    if j == |s| || s[j] == ')' then j else Cierre(s, j + 1)
  }

  /**
   * The pattern matches at the start of `s`: an opening parenthesis, at least
   * one character other than ')', then ')'.
   */
  predicate GrupoAlInicio(s: string)
  {
    |s| >= 2 && s[0] == '(' && 1 < Cierre(s, 1) < |s|
  }

  /** No position of `s` starts a match. */
  predicate SinGrupos(s: string)
  {
    forall i :: 0 <= i < |s| ==> !GrupoAlInicio(s[i..])
  }

  /** `re.search(...).group(1)` for the leftmost match, or '' when there is none. */
  function Codigo(s: string): string
    decreases |s|
  {
    if s == [] then ""
    else if GrupoAlInicio(s) then s[1..Cierre(s, 1)]
    else Codigo(s[1..])
  }

  /** `re.sub(r'\([^)]+\)\s*', '', s)`: every match and the whitespace after it removed. */
  function Quitar(s: string): string
    decreases |s|
  {
    if s == [] then ""
    else if GrupoAlInicio(s) then Quitar(TrimStart(s[Cierre(s, 1) + 1..]))
    else [s[0]] + Quitar(s[1..])
  }

  lemma SinGruposCons(s: string)
    requires s != []
    ensures SinGrupos(s) <==> !GrupoAlInicio(s) && SinGrupos(s[1..])
  {
    if !GrupoAlInicio(s) && SinGrupos(s[1..]) {
      forall i | 0 <= i < |s| ensures !GrupoAlInicio(s[i..]) {
        if i > 0 {
          assert s[i..] == s[1..][i - 1..];
        }
      }
    }
    if SinGrupos(s) {
      assert s[0..] == s;
      forall i | 0 <= i < |s[1..]| ensures !GrupoAlInicio(s[1..][i..]) {
        assert s[1..][i..] == s[i + 1..];
      }
    }
  }

  /**
   * The code is empty exactly when the text has no match; otherwise it is
   * non-empty, holds no ')', and sits between parentheses at the leftmost
   * match.
   */
  lemma CodigoSii(s: string)
    ensures Codigo(s) == "" <==> SinGrupos(s)
    ensures Codigo(s) != "" ==>
      && ')' !in Codigo(s)
      && exists i ::
        && OccursAt(s, "(" + Codigo(s) + ")", i)
        && forall j :: 0 <= j < i ==> !GrupoAlInicio(s[j..])
  {
    CodigoVacio(s);
    CodigoSinCierre(s);
    CodigoPosicion(s);
  }

  lemma {:induction false} CodigoVacio(s: string)
    ensures Codigo(s) == "" <==> SinGrupos(s)
    decreases |s|
  {
    if s != [] {
      SinGruposCons(s);
      if !GrupoAlInicio(s) {
        CodigoVacio(s[1..]);
      }
    }
  }

  lemma {:induction false} CodigoSinCierre(s: string)
    ensures ')' !in Codigo(s)
    decreases |s|
  {
    if s != [] && !GrupoAlInicio(s) {
      CodigoSinCierre(s[1..]);
    }
  }

  lemma {:induction false} CodigoPosicion(s: string)
    ensures Codigo(s) != "" ==>
      exists i ::
        && OccursAt(s, "(" + Codigo(s) + ")", i)
        && forall j :: 0 <= j < i ==> !GrupoAlInicio(s[j..])
    decreases |s|
  {
    if s != [] {
      if GrupoAlInicio(s) {
        var k := Cierre(s, 1);
        var c := s[1..k];
        assert s[0..k + 1] == "(" + c + ")";
        assert OccursAt(s, "(" + c + ")", 0);
      } else {
        CodigoPosicion(s[1..]);
        var c := Codigo(s[1..]);
        if c != "" {
          var p := "(" + c + ")";
          var i :| && OccursAt(s[1..], p, i)
                   && forall j :: 0 <= j < i ==> !GrupoAlInicio(s[1..][j..]);
          assert OccursAt(s, p, i + 1) by {
            assert s[i + 1..i + 1 + |p|] == s[1..][i..i + |p|];
          }
          forall j | 0 <= j < i + 1 ensures !GrupoAlInicio(s[j..]) {
            if j > 0 {
              assert s[j..] == s[1..][j - 1..];
            }
          }
        }
      }
    }
  }

  /** Removing matches only deletes characters. */
  lemma {:induction false} QuitarCaracteres(s: string)
    ensures |Quitar(s)| <= |s|
    ensures forall x :: x in Quitar(s) ==> x in s
    decreases |s|
  {
    if s != [] {
      if GrupoAlInicio(s) {
        var rest := s[Cierre(s, 1) + 1..];
        var t := TrimStart(rest);
        assert Quitar(s) == Quitar(t);
        QuitarCaracteres(t);
        Seqs.InSuffix(rest, |rest| - |t|, t);
        Seqs.InSuffix(s, Cierre(s, 1) + 1, rest);
      } else {
        assert Quitar(s) == [s[0]] + Quitar(s[1..]);
        QuitarCaracteres(s[1..]);
        Seqs.InSuffix(s, 1, s[1..]);
      }
    }
  }

  /** Once every match is removed, no match is left. */
  lemma {:induction false} QuitarSinGrupos(s: string)
    ensures SinGrupos(Quitar(s))
    decreases |s|
  {
    if s == [] {
    } else if GrupoAlInicio(s) {
      QuitarSinGrupos(TrimStart(s[Cierre(s, 1) + 1..]));
    } else {
      var t := Quitar(s[1..]);
      var u := [s[0]] + t;
      assert Quitar(s) == u;
      QuitarSinGrupos(s[1..]);
      assert u[1..] == t;
      SinGruposCons(u);
      if s[0] == '(' && |u| >= 2 {
        var k := Cierre(s, 1);
        if k == 1 {
          assert s[1] == ')' && !GrupoAlInicio(s[1..]);
          assert t[0] == ')';
          assert Cierre(u, 1) == 1;
        } else {
          assert k == |s|;
          QuitarCaracteres(s[1..]);
          assert ')' !in s[1..];
          assert ')' !in t;
          assert Cierre(u, 1) == |u|;
        }
      }
    }
  }

  /** A text without matches is left as it is. */
  lemma {:induction false} QuitarIdentidad(s: string)
    requires SinGrupos(s)
    ensures Quitar(s) == s
    decreases |s|
  {
    if s != [] {
      SinGruposCons(s);
      QuitarIdentidad(s[1..]);
    }
  }

  /**
   * The leftmost match decides the first cut: the text before it is kept
   * unchanged, the match and the whitespace after it are dropped, and the
   * removal goes on from there.
   */
  lemma QuitarPrimerGrupo(s: string, i: nat)
    requires i < |s| && GrupoAlInicio(s[i..])
    requires forall j {:trigger GrupoAlInicio(s[j..])} :: 0 <= j < i ==> !GrupoAlInicio(s[j..])
    ensures Quitar(s) == s[..i] + Quitar(TrimStart(s[i..][Cierre(s[i..], 1) + 1..]))
  {
    QuitarHasta(s, i);
  }

  /** The text before the leftmost match passes through unchanged. */
  lemma {:induction false} QuitarHasta(s: string, i: nat)
    requires i <= |s|
    requires forall j {:trigger GrupoAlInicio(s[j..])} :: 0 <= j < i ==> !GrupoAlInicio(s[j..])
    ensures Quitar(s) == s[..i] + Quitar(s[i..])
    decreases i
  {
    assert s[0..] == s;
    if i == 0 {
      assert s[..i] == [];
    } else {
      var t := s[1..];
      assert t[i - 1..] == s[i..];
      assert !GrupoAlInicio(s[0..]);
      QuitarCons(s);
      forall j {:trigger GrupoAlInicio(t[j..])} | 0 <= j < i - 1 ensures !GrupoAlInicio(t[j..]) {
        assert t[j..] == s[j + 1..];
      }
      QuitarHasta(t, i - 1);
      Seqs.ConsPrefix(s, i, Quitar(s[i..]));
    }
  }

  /** A text that does not start with a match keeps its first character. */
  lemma QuitarCons(s: string)
    requires s != [] && !GrupoAlInicio(s)
    ensures Quitar(s) == [s[0]] + Quitar(s[1..])
  {
  }

  /** Removal is idempotent, and a text whose code is empty keeps its whole text. */
  lemma QuitarIdempotente(s: string)
    ensures Quitar(Quitar(s)) == Quitar(s)
    ensures Codigo(s) == "" ==> Quitar(s) == s
  {
    QuitarSinGrupos(s);
    QuitarIdentidad(Quitar(s));
    CodigoSii(s);
    if Codigo(s) == "" {
      QuitarIdentidad(s);
    }
  }

  // ---------------------------------------------------------------
  // Rows and tables
  // ---------------------------------------------------------------

  /** A row the importer converts: at least three cells. */
  predicate Completa(f: Fila)
  {
    |f| >= 3
  }

  /** A row the importer skips, or one whose score parses. */
  predicate Puntuable(f: Fila, aReal: Conversor)
  {
    Completa(f) ==> aReal(f[2]).Some?
  }

  /** One row to one cargo; the score is parsed from the third cell. */
  function CargoDeFila(f: Fila, aReal: Conversor): Result<Cargo, Error>
    requires Completa(f)
  {
    var areaTexto := Strip(f[1]);
    var puntaje := aReal(f[2]);
    if puntaje.None? then Failure(ValueError)
    else Success(Cargo(Strip(f[0]), Codigo(areaTexto), Strip(Quitar(areaTexto)), JNum(puntaje.value)))
  }

  /** The rows of one table, converted in order; a score that does not parse aborts. */
  function Convertir(filas: Tabla, aReal: Conversor): Result<seq<Cargo>, Error>
    decreases |filas|
  {
    if filas == [] then Success([])
    else
      var previos :- Convertir(filas[..|filas| - 1], aReal);
      var f := filas[|filas| - 1];
      if !Completa(f) then Success(previos)
      else
        var c :- CargoDeFila(f, aReal);
        Success(previos + [c])
  }

  /**
   * A table converts unless one of its complete rows has a score that does
   * not parse, and then the error is that ValueError.
   */
  lemma {:induction false} ConvertirExito(filas: Tabla, aReal: Conversor)
    ensures var r := Convertir(filas, aReal);
      r.Success? <==> forall i :: 0 <= i < |filas| ==> Puntuable(filas[i], aReal)
    ensures var r := Convertir(filas, aReal);
      r.Failure? ==> r.error == ValueError
    decreases |filas|
  {
    if filas != [] {
      var p := filas[..|filas| - 1];
      var f := filas[|filas| - 1];
      assert filas == p + [f];
      ConvertirExito(p, aReal);
      PuntuablesUltima(filas, p, f, aReal);
      var r, r0 := Convertir(filas, aReal), Convertir(p, aReal);
      if r0.Failure? {
        assert r == Failure(r0.error);
      } else if !Completa(f) {
        assert r == r0;
      } else {
        assert CargoDeFila(f, aReal).Failure? <==> !Puntuable(f, aReal);
        assert r.Success? <==> CargoDeFila(f, aReal).Success?;
      }
    }
  }

  lemma PuntuablesUltima(filas: Tabla, p: Tabla, f: Fila, aReal: Conversor)
    requires filas == p + [f]
    ensures (forall i :: 0 <= i < |filas| ==> Puntuable(filas[i], aReal))
        <==> (forall i :: 0 <= i < |p| ==> Puntuable(p[i], aReal)) && Puntuable(f, aReal)
  {
    forall i | 0 <= i < |p| ensures filas[i] == p[i] { }
    assert |filas| == |p| + 1 && filas[|p|] == f;
  }

  /** A table that converts gives one cargo per complete row, in row order. */
  lemma {:induction false} ConvertirFilas(filas: Tabla, aReal: Conversor)
    ensures var r := Convertir(filas, aReal);
      r.Success? ==> Convertidas(Seqs.Filter(filas, Completa), r.value, aReal)
    decreases |filas|
  {
    if filas != [] {
      var p, f := filas[..|filas| - 1], filas[|filas| - 1];
      assert filas == p + [f];
      ConvertirFilas(p, aReal);
      Seqs.FilterAppend(p, [f], Completa);
      var r, r0 := Convertir(filas, aReal), Convertir(p, aReal);
      var fs0 := Seqs.Filter(p, Completa);
      if r0.Success? && r.Success? {
        if Completa(f) {
          assert Seqs.Filter([f], Completa) == [f];
          var c := CargoDeFila(f, aReal).value;
          assert r.value == r0.value + [c];
          ConvertidasUltima(fs0, r0.value, f, c, aReal);
        } else {
          assert Seqs.Filter([f], Completa) == [];
          assert r == r0;
        }
      }
    }
  }

  /** Each complete row converts to the cargo at the same position. */
  ghost predicate Convertidas(fs: Tabla, cs: seq<Cargo>, aReal: Conversor)
  {
    && |cs| == |fs|
    && forall i :: 0 <= i < |fs| ==> Convierte(aReal)(fs[i], cs[i])
  }

  /** A complete row and the cargo it converts to. */
  function Convierte(aReal: Conversor): (Fila, Cargo) -> bool
  {
    (f: Fila, c: Cargo) => Completa(f) && CargoDeFila(f, aReal) == Success(c)
  }

  lemma ConvertidasUltima(fs: Tabla, cs: seq<Cargo>, f: Fila, c: Cargo, aReal: Conversor)
    requires Convertidas(fs, cs, aReal)
    requires Completa(f) && CargoDeFila(f, aReal) == Success(c)
    ensures Convertidas(fs + [f], cs + [c], aReal)
  {
    Seqs.AllPairsAppend(fs, cs, f, c, Convierte(aReal));
  }

  /** What `parse_cargos_html` returns: the habilitantes and the bonificantes. */
  function Parsear(tablas: seq<Tabla>, aReal: Conversor): Result<(seq<Cargo>, seq<Cargo>), Error>
  {
    var h :- if |tablas| > 0 then Convertir(tablas[0], aReal) else Success([]);
    var b :- if |tablas| > 1 then Convertir(tablas[1], aReal) else Success([]);
    Success((h, b))
  }

  /** Tables after the second are ignored and missing tables give empty lists. */
  lemma ParsearTablas(tablas: seq<Tabla>, aReal: Conversor)
    ensures |tablas| == 0 ==> Parsear(tablas, aReal) == Success(([], []))
    ensures |tablas| == 1 ==>
      (match Convertir(tablas[0], aReal)
       case Success(h) => Parsear(tablas, aReal) == Success((h, []))
       case Failure(e) => Parsear(tablas, aReal) == Failure(e))
    ensures |tablas| >= 2 ==> Parsear(tablas, aReal) == Parsear(tablas[..2], aReal)
  {
  }

  /** The row loop for one table. */
  method ConvertirTabla(filas: Tabla, aReal: Conversor) returns (r: Result<seq<Cargo>, Error>)
    ensures r == Convertir(filas, aReal)
  {
    var cargos: seq<Cargo> := [];
    for i := 0 to |filas|
      invariant Convertir(filas[..i], aReal) == Success(cargos)
    {
      var f := filas[i];
      assert filas[..i + 1][..i] == filas[..i];
      if |f| >= 3 {
        var cargo := CargoDeFila(f, aReal);
        if cargo.Failure? {
          ConvertirExito(filas, aReal);
          assert !Puntuable(filas[i], aReal);
          return Failure(cargo.error);
        }
        cargos := cargos + [cargo.value];
      }
    }
    assert filas[..|filas|] == filas;
    r := Success(cargos);
  }

  /** `parse_cargos_html`. */
  method ParseCargosHtml(tablas: seq<Tabla>, aReal: Conversor)
    returns (r: Result<(seq<Cargo>, seq<Cargo>), Error>)
    ensures r == Parsear(tablas, aReal)
  {
    var habilitantes: seq<Cargo> := [];
    var bonificantes: seq<Cargo> := [];
    if |tablas| > 0 {
      var h := ConvertirTabla(tablas[0], aReal);
      if h.Failure? {
        return Failure(h.error);
      }
      habilitantes := h.value;
    }
    if |tablas| > 1 {
      var b := ConvertirTabla(tablas[1], aReal);
      if b.Failure? {
        return Failure(b.error);
      }
      bonificantes := b.value;
    }
    r := Success((habilitantes, bonificantes));
  }

  // ---------------------------------------------------------------
  // The per-modalidad summary
  // ---------------------------------------------------------------

  /** `modalidades[m] = modalidades.get(m, 0) + 1` over a list. */
  function Conteo(cargos: seq<Cargo>): map<string, nat>
    decreases |cargos|
  {
    if cargos == [] then map[]
    else
      var m := Conteo(cargos[..|cargos| - 1]);
      var k := cargos[|cargos| - 1].modalidad;
      m[k := (if k in m then m[k] else 0) + 1]
  }

  /** How many cargos of the list have modalidad `k`. */
  function Cuantos(cargos: seq<Cargo>, k: string): nat
    decreases |cargos|
  {
    if cargos == [] then 0
    else Cuantos(cargos[..|cargos| - 1], k) + (if cargos[|cargos| - 1].modalidad == k then 1 else 0)
  }

  /** The counter has a key per modalidad present, holding how many cargos have it. */
  lemma {:induction false} ConteoCuenta(cargos: seq<Cargo>)
    ensures forall k :: k in Conteo(cargos) <==> k in Modalidades(cargos)
    ensures forall k | k in Conteo(cargos) :: Conteo(cargos)[k] == Cuantos(cargos, k) > 0
    decreases |cargos|
  {
    if cargos != [] {
      var p := cargos[..|cargos| - 1];
      ConteoCuenta(p);
      ModalidadesUltima(cargos);
      forall k | k !in Conteo(p) ensures Cuantos(p, k) == 0 {
        CuantosAusente(p, k);
      }
    }
  }

  lemma {:induction false} CuantosAusente(cargos: seq<Cargo>, k: string)
    requires k !in Modalidades(cargos)
    ensures Cuantos(cargos, k) == 0
    decreases |cargos|
  {
    if cargos != [] {
      var p := cargos[..|cargos| - 1];
      ModalidadesUltima(cargos);
      CuantosAusente(p, k);
    }
  }

  /** The sum of the counter's values over a list of keys. */
  function Suma(ks: seq<string>, m: map<string, nat>): nat
    decreases |ks|
  {
    if ks == [] then 0
    else Suma(ks[..|ks| - 1], m) + (if ks[|ks| - 1] in m then m[ks[|ks| - 1]] else 0)
  }

  /** Changing the value of a key the list does not hold leaves the sum alone. */
  lemma {:induction false} SumaOtra(ks: seq<string>, m: map<string, nat>, k: string, v: nat)
    requires k !in ks
    ensures Suma(ks, m[k := v]) == Suma(ks, m)
    decreases |ks|
  {
    if ks != [] {
      SumaOtra(ks[..|ks| - 1], m, k, v);
    }
  }

  /** Adding one to a key listed once adds one to the sum. */
  lemma {:induction false} SumaIncrementa(ks: seq<string>, m: map<string, nat>, k: string)
    requires k in ks && k in m
    requires forall i, j :: 0 <= i < j < |ks| ==> ks[i] != ks[j]
    ensures Suma(ks, m[k := m[k] + 1]) == Suma(ks, m) + 1
    decreases |ks|
  {
    var p, x := ks[..|ks| - 1], ks[|ks| - 1];
    if x == k {
      assert k !in p;
      SumaOtra(p, m, k, m[k] + 1);
    } else {
      assert k in p by {
        var i :| 0 <= i < |ks| && ks[i] == k;
        assert i < |ks| - 1 && p[i] == k;
      }
      SumaIncrementa(p, m, k);
    }
  }

  /** Counting one more `k` adds one to the sum over the keys seen so far. */
  lemma SumaPaso(dp: seq<string>, mp: map<string, nat>, k: string, d: seq<string>, m: map<string, nat>)
    requires forall i, j :: 0 <= i < j < |dp| ==> dp[i] != dp[j]
    requires k in mp <==> k in dp
    requires d == if k in dp then dp else dp + [k]
    requires m == mp[k := (if k in mp then mp[k] else 0) + 1]
    ensures Suma(d, m) == Suma(dp, mp) + 1
  {
    if k in dp {
      assert d == dp && m == mp[k := mp[k] + 1];
      SumaIncrementa(dp, mp, k);
    } else {
      assert d == dp + [k] && m == mp[k := 1];
      SumaOtra(dp, mp, k, 1);
      assert d[..|d| - 1] == dp && d[|d| - 1] == k;
      assert Suma(d, m) == Suma(dp, m) + 1;
    }
  }

  /** The per-modalidad counts add up to the length of the list. */
  lemma {:induction false} ConteoSuma(cargos: seq<Cargo>)
    ensures Suma(Seqs.Dedup(Modalidades(cargos)), Conteo(cargos)) == |cargos|
    decreases |cargos|
  {
    if cargos != [] {
      ConteoSuma(cargos[..|cargos| - 1]);
      ConteoSumaPaso(cargos);
    } else {
      assert Modalidades(cargos) == [];
      assert Seqs.Dedup(Modalidades(cargos)) == [];
    }
  }

  /** Counting one more cargo adds one to the sum of the counts. */
  lemma ConteoSumaPaso(cargos: seq<Cargo>)
    requires cargos != []
    ensures var p := cargos[..|cargos| - 1];
      Suma(Seqs.Dedup(Modalidades(cargos)), Conteo(cargos))
      == Suma(Seqs.Dedup(Modalidades(p)), Conteo(p)) + 1
  {
    var p, k := cargos[..|cargos| - 1], cargos[|cargos| - 1].modalidad;
    var dp, mp := Seqs.Dedup(Modalidades(p)), Conteo(p);
    var d, m := Seqs.Dedup(Modalidades(cargos)), Conteo(cargos);
    ConteoClave(p, k);
    DedupModalidadesUltima(cargos);
    ConteoUltimo(cargos);
    SumaPaso(dp, mp, k, d, m);
  }

  /** The de-duplicated modalidades gain the last one only when it is new. */
  lemma DedupModalidadesUltima(cargos: seq<Cargo>)
    requires cargos != []
    ensures var ms, k := Modalidades(cargos[..|cargos| - 1]), cargos[|cargos| - 1].modalidad;
      && (k in Seqs.Dedup(ms) <==> k in ms)
      && Seqs.Dedup(Modalidades(cargos)) == if k in Seqs.Dedup(ms) then Seqs.Dedup(ms) else Seqs.Dedup(ms) + [k]
  {
    var ms, k := Modalidades(cargos[..|cargos| - 1]), cargos[|cargos| - 1].modalidad;
    ModalidadesUltima(cargos);
    Seqs.DedupUltimo(ms, k);
  }

  lemma ModalidadesUltima(cargos: seq<Cargo>)
    requires cargos != []
    ensures Modalidades(cargos) == Modalidades(cargos[..|cargos| - 1]) + [cargos[|cargos| - 1].modalidad]
  {
  }

  /** Counting the last cargo adds one to its modalidad's entry. */
  lemma ConteoUltimo(cargos: seq<Cargo>)
    requires cargos != []
    ensures var m, k := Conteo(cargos[..|cargos| - 1]), cargos[|cargos| - 1].modalidad;
      Conteo(cargos) == m[k := (if k in m then m[k] else 0) + 1]
  {
  }

  lemma ConteoClave(cargos: seq<Cargo>, k: string)
    ensures k in Conteo(cargos) <==> k in Modalidades(cargos)
  {
    ConteoCuenta(cargos);
  }

  /** The counting loop of `generar_json_cargos`. */
  method ContarPorModalidad(cargos: seq<Cargo>) returns (conteo: map<string, nat>)
    ensures conteo == Conteo(cargos)
  {
    conteo := map[];
    for i := 0 to |cargos|
      invariant conteo == Conteo(cargos[..i])
    {
      assert cargos[..i + 1][..i] == cargos[..i];
      var k := cargos[i].modalidad;
      conteo := conteo[k := (if k in conteo then conteo[k] else 0) + 1];
    }
    assert cargos[..|cargos|] == cargos;
  }

  // ---------------------------------------------------------------
  // The two entry points
  // ---------------------------------------------------------------

  const Descripcion: string := "Cargos docentes - Titulo de Danza"

  /** The catalog document `generar_json_cargos` writes. */
  function Documento(h: seq<Cargo>, b: seq<Cargo>): Json
  {
    JObj(map[
      "metadata" := JObj(map[
        "total_habilitantes" := JNum(|h| as real),
        "total_bonificantes" := JNum(|b| as real),
        "descripcion" := JStr(Descripcion)]),
      "habilitantes" := JArr(ToDicts(h)),
      "bonificantes" := JArr(ToDicts(b))])
  }

  /** What `generar_json_cargos` does to the file system, from the tables of the HTML file. */
  function Generar(tablas: seq<Tabla>, aReal: Conversor, files: Files, salida: string): Result<Files, Error>
  {
    var (h, b) :- Parsear(tablas, aReal);
    Success(files[salida := Documento(h, b)])
  }

  /**
   * `generar_json_cargos`: writes the catalog and returns the two
   * per-modalidad summaries it prints.
   */
  method GenerarJsonCargos(tablas: seq<Tabla>, aReal: Conversor, files: Files, salida: string)
    returns (r: Result<Files, Error>, resumenH: map<string, nat>, resumenB: map<string, nat>)
    ensures r == Generar(tablas, aReal, files, salida)
    ensures r.Success? ==>
      && resumenH == Conteo(Parsear(tablas, aReal).value.0)
      && resumenB == Conteo(Parsear(tablas, aReal).value.1)
  {
    resumenH, resumenB := map[], map[];
    var parsed := ParseCargosHtml(tablas, aReal);
    if parsed.Failure? {
      return Failure(parsed.error), resumenH, resumenB;
    }
    var (h, b) := parsed.value;
    r := Success(files[salida := Documento(h, b)]);
    resumenH := ContarPorModalidad(h);
    resumenB := ContarPorModalidad(b);
  }

  /**
   * The written catalog loads back as the habilitantes followed by the
   * bonificantes, and its totals are the lengths of the two lists.
   */
  lemma GenerarRoundTrip(tablas: seq<Tabla>, aReal: Conversor, files: Files, salida: string)
    ensures Generar(tablas, aReal, files, salida).Success? <==> Parsear(tablas, aReal).Success?
    ensures var r := Generar(tablas, aReal, files, salida);
      r.Success? ==>
        var (h, b) := Parsear(tablas, aReal).value;
        && CatalogoDeArchivo(r.value, salida) == Success(h + b)
        && r.value[salida].fields["metadata"].fields["total_habilitantes"] == JNum(|h| as real)
        && r.value[salida].fields["metadata"].fields["total_bonificantes"] == JNum(|b| as real)
  {
    var p := Parsear(tablas, aReal);
    if p.Success? {
      var (h, b) := p.value;
      GroupedCatalogRoundTrip(h, b, Documento(h, b).fields["metadata"]);
      assert Documento(h, b) == JObj(map["metadata" := Documento(h, b).fields["metadata"],
        "habilitantes" := JArr(ToDicts(h)), "bonificantes" := JArr(ToDicts(b))]);
    }
  }

  /** File written by `parse_desde_string`. */
  const ArchivoGenerados: string := "cargos_generados.json"

  /** What `parse_desde_string` writes and returns: the habilitantes only. */
  function DesdeTexto(tablas: seq<Tabla>, aReal: Conversor, files: Files): Result<(Files, seq<Cargo>), Error>
  {
    var (h, _) :- Parsear(tablas, aReal);
    Success((files[ArchivoGenerados := JArr(ToDicts(h))], h))
  }

  /** `parse_desde_string`. */
  method ParseDesdeString(tablas: seq<Tabla>, aReal: Conversor, files: Files)
    returns (r: Result<(Files, seq<Cargo>), Error>)
    ensures r == DesdeTexto(tablas, aReal, files)
  {
    var parsed := ParseCargosHtml(tablas, aReal);
    if parsed.Failure? {
      return Failure(parsed.error);
    }
    var (habilitantes, _) := parsed.value;
    var todos: seq<Cargo> := [];
    for i := 0 to |habilitantes|
      invariant todos == habilitantes[..i]
    {
      todos := todos + [habilitantes[i]];
    }
    assert todos == habilitantes;
    r := Success((files[ArchivoGenerados := JArr(ToDicts(todos))], todos));
  }

  /**
   * The list returned is the first table's cargos, and the written file
   * loads back as exactly that list: the second table never reaches it.
   */
  lemma DesdeTextoSoloHabilitantes(tablas: seq<Tabla>, aReal: Conversor, files: Files)
    ensures var r := DesdeTexto(tablas, aReal, files);
      r.Success? ==>
        && (|tablas| == 0 ==> r.value.1 == [])
        && (|tablas| > 0 ==> Convertir(tablas[0], aReal) == Success(r.value.1))
        && CatalogoDeArchivo(r.value.0, ArchivoGenerados) == Success(r.value.1)
  {
    var r := DesdeTexto(tablas, aReal, files);
    if r.Success? {
      FlatCatalogRoundTrip(r.value.1);
    }
  }
}
