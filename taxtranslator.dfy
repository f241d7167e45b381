/**
 * TaxTranslator (biomedgraph/parser/helper/taxtranslator.py): translates the
 * many ways of writing an organism (Ensembl name, scientific name, genus_species,
 * short code, abbreviated scientific name) to an NCBI taxonomy id, caching the
 * answers, and translates taxonomy ids back to names.
 */
module TaxTranslator {
  import opened Results
  import opened PyStr
  import PyDict
  import Scan

  type Dict = PyDict.Dict

  /** The number of entries of _ensembl_name. */
  const EnsemblCount := 69

  /** The n-th entry of _ensembl_name, in its display order: an Ensembl species name and its taxid. */
  function EnsemblItem(n: nat): (string, string)
    requires n < EnsemblCount
  {
    match n
    case 0 => ("ailuropoda_melanoleuca", "9646")
    case 1 => ("anas_platyrhynchos", "8839")
    case 2 => ("anolis_carolinensis", "28377")
    case 3 => ("astyanax_mexicanus", "7994")
    case 4 => ("bos_taurus", "9913")
    case 5 => ("caenorhabditis_elegans", "6239")
    case 6 => ("callithrix_jacchus", "9483")
    case 7 => ("canis_familiaris", "9615")
    case 8 => ("cavia_porcellus", "10141")
    case 9 => ("chlorocebus_sabaeus", "60711")
    case 10 => ("choloepus_hoffmanni", "9358")
    case 11 => ("ciona_intestinalis", "7719")
    case 12 => ("ciona_savignyi", "51511")
    case 13 => ("danio_rerio", "7955")
    case 14 => ("dasypus_novemcinctus", "9361")
    case 15 => ("dipodomys_ordii", "10020")
    case 16 => ("drosophila_melanogaster", "7227")
    case 17 => ("echinops_telfairi", "9371")
    case 18 => ("equus_caballus", "9796")
    case 19 => ("erinaceus_europaeus", "9365")
    case 20 => ("felis_catus", "9685")
    case 21 => ("ficedula_albicollis", "59894")
    case 22 => ("gadus_morhua", "8049")
    case 23 => ("gallus_gallus", "9031")
    case 24 => ("gasterosteus_aculeatus", "69293")
    case 25 => ("gorilla_gorilla", "9593")
    case 26 => ("homo_sapiens", "9606")
    case 27 => ("ictidomys_tridecemlineatus", "43179")
    case 28 => ("latimeria_chalumnae", "7897")
    case 29 => ("lepisosteus_oculatus", "7918")
    case 30 => ("loxodonta_africana", "9785")
    case 31 => ("macaca_mulatta", "9544")
    case 32 => ("macropus_eugenii", "9315")
    case 33 => ("meleagris_gallopavo", "9103")
    case 34 => ("microcebus_murinus", "30608")
    case 35 => ("monodelphis_domestica", "13616")
    case 36 => ("mus_musculus", "10090")
    case 37 => ("mustela_putorius_furo", "9669")
    case 38 => ("myotis_lucifugus", "59463")
    case 39 => ("nomascus_leucogenys", "61853")
    case 40 => ("ochotona_princeps", "9978")
    case 41 => ("oreochromis_niloticus", "8128")
    case 42 => ("ornithorhynchus_anatinus", "9258")
    case 43 => ("oryctolagus_cuniculus", "9986")
    case 44 => ("oryzias_latipes", "8090")
    case 45 => ("otolemur_garnettii", "30611")
    case 46 => ("ovis_aries", "9940")
    case 47 => ("pan_troglodytes", "9598")
    case 48 => ("papio_anubis", "9555")
    case 49 => ("pelodiscus_sinensis", "13735")
    case 50 => ("petromyzon_marinus", "7757")
    case 51 => ("poecilia_formosa", "48698")
    case 52 => ("pongo_abelii", "9601")
    case 53 => ("procavia_capensis", "9813")
    case 54 => ("pteropus_vampyrus", "132908")
    case 55 => ("rattus_norvegicus", "10116")
    case 56 => ("saccharomyces_cerevisiae", "4932")
    case 57 => ("sarcophilus_harrisii", "9305")
    case 58 => ("sorex_araneus", "42254")
    case 59 => ("sus_scrofa", "9823")
    case 60 => ("taeniopygia_guttata", "59729")
    case 61 => ("takifugu_rubripes", "31033")
    case 62 => ("tarsius_syrichta", "9478")
    case 63 => ("tetraodon_nigroviridis", "99883")
    case 64 => ("tupaia_belangeri", "37347")
    case 65 => ("tursiops_truncatus", "9739")
    case 66 => ("vicugna_pacos", "30538")
    case 67 => ("xenopus_tropicalis", "8364")
    case _ => ("xiphophorus_maculatus", "8083")
  }

  /** _ensembl_name, in its display order. */
  function EnsemblItems(): (r: seq<(string, string)>)
    ensures |r| == EnsemblCount && forall n :: 0 <= n < EnsemblCount ==> r[n] == EnsemblItem(n)
  {
    seq(EnsemblCount, n requires 0 <= n < EnsemblCount => EnsemblItem(n))
  }

  /** The tables a translator created over the lines of names.dmp holds, or the error reading them raises. */
  function Initial(lines: seq<string>): (r: Result<Tables>)
    ensures r.Ok? ==> ValidTables(r.value)
  {
    EnsemblNameValid();
    Load(PyDict.FromItems(EnsemblItems()), lines)
  }

  /** The _ensembl_name display is a well-formed dict. */
  lemma EnsemblNameValid()
    ensures PyDict.Valid(PyDict.FromItems(EnsemblItems()))
  {
    PyDict.FromItemsValid(EnsemblItems());
  }

  /** _short_names */
  const ShortNames: Dict := PyDict.Dict(["hsa", "mmu"], map["hsa" := "9606", "mmu" := "10090"])

  /** val.strip().lower() */
  function Normalise(val: string): (r: string)
    ensures |r| <= |val|
    ensures r == [] || (!IsSpace(r[0]) && !IsSpace(r[|r| - 1]))
    ensures forall i :: 0 <= i < |r| ==> !('A' <= r[i] <= 'Z')
  {
    var s := Strip(val);
    if s == [] then []
    else
      LowerCharSpace(s[0]);
      LowerCharSpace(s[|s| - 1]);
      Lower(s)
  }

  /** Normalising is lower-casing the stripped value. */
  lemma NormaliseLowerStrip(val: string)
    ensures Normalise(val) == Lower(Strip(val))
  {
  }

  /** Lower-casing never turns a character into whitespace or back. */
  lemma LowerCharSpace(c: char)
    ensures IsSpace(LowerChar(c)) == IsSpace(c)
  {
  }

  /** Lower-casing twice is lower-casing once. */
  lemma LowerIdempotent(s: string)
    ensures Lower(Lower(s)) == Lower(s)
  {
    assert forall i :: 0 <= i < |s| ==> LowerChar(LowerChar(s[i])) == LowerChar(s[i]);
  }

  /** A normalised value normalises to itself, so translate gives the same answer for both. */
  lemma NormaliseIdempotent(val: string)
    ensures Normalise(Normalise(val)) == Normalise(val)
  {
    var v := Normalise(val);
    StripNoSpace(v);
    LowerIdempotent(Strip(val));
  }

  /** The translation tables: _ensembl_name and the three _get_ncbi_tax_data fills. */
  datatype Tables = Tables(ensembl: Dict, full: Dict, abbr: Dict, genusSpecies: Dict)

  ghost predicate ValidTables(t: Tables) {
    PyDict.Valid(t.ensembl) && PyDict.Valid(t.full) && PyDict.Valid(t.abbr) && PyDict.Valid(t.genusSpecies)
  }

  /** "<initial> <last>" for a two-word scientific name. */
  function AbbrKey(name: string): (r: Option<string>)
    ensures r.Some? <==> |SplitWs(name)| == 2
  {
    var w := SplitWs(name);
    if |w| == 2 then Some([w[0][0]] + " " + w[1]) else None
  }

  /** "<first>_<second>" for a two-word scientific name. */
  function GenusKey(name: string): (r: Option<string>)
    ensures r.Some? <==> |SplitWs(name)| == 2
  {
    var w := SplitWs(name);
    if |w| == 2 then Some(w[0] + "_" + w[1]) else None
  }

  /** The fields of a names.dmp line: l.rstrip('\t|\n').split('\t|\t') */
  function NameFields(line: string): seq<string> {
    Split(RStripChars(line, {'\t', '|', '\n'}), "\t|\t")
  }

  /**
   * One line of names.dmp.  Only 'scientific name' lines are recorded: the
   * lower-cased name maps to the taxid and, for a two-word name, so do its
   * abbreviation and its genus_species form.  A line with fewer than four
   * fields raises IndexError.
   */
  function TaxLine(t: Tables, line: string): (r: Result<Tables>)
    ensures r.Ok? ==> r.value.ensembl == t.ensembl && (ValidTables(t) ==> ValidTables(r.value))
  {
    TaxFields(t, NameFields(line))
  }

  /** TaxLine, given the line's fields. */
  function TaxFields(t: Tables, flds: seq<string>): (r: Result<Tables>)
    ensures r.Ok? ==> r.value.ensembl == t.ensembl && (ValidTables(t) ==> ValidTables(r.value))
  {
    if |flds| < 4 then Err(IndexError("flds[3]"))
    else if flds[3] != "scientific name" then Ok(t)
    else
      var taxId := flds[0];
      var name := Lower(flds[1]);
      var t1 :=
        if |SplitWs(name)| == 2 then
          t.(abbr := PyDict.Put(t.abbr, AbbrKey(name).value, taxId),
             genusSpecies := PyDict.Put(t.genusSpecies, GenusKey(name).value, taxId))
        else t;
      Ok(t1.(full := PyDict.Put(t1.full, name, taxId)))
  }

  /** The tables before names.dmp is read, with the given Ensembl names. */
  function EmptyTables(ensembl: Dict): (t: Tables)
    requires PyDict.Valid(ensembl)
    ensures ValidTables(t)
  {
    Tables(ensembl, PyDict.Empty(), PyDict.Empty(), PyDict.Empty())
  }

  /** The loop's state after a line: the tables, or the error that stopped it. */
  function LoadStep(prev: Result<Tables>, line: string): Result<Tables> {
    if prev.Ok? then TaxLine(prev.value, line) else prev
  }

  predicate Failed(r: Result<Tables>) {
    r.Err?
  }

  /** The tables after the lines of names.dmp, or the first error. */
  function Load(ensembl: Dict, lines: seq<string>): (r: Result<Tables>)
    requires PyDict.Valid(ensembl)
    ensures r.Ok? ==> ValidTables(r.value) && r.value.ensembl == ensembl
  {
    LoadKeeps(ensembl, lines);
    Scan.Run(Ok(EmptyTables(ensembl)), lines, LoadStep, Failed)
  }

  /**
   * What every state of the loop satisfies: valid tables over the given
   * Ensembl names, whose abbreviation and genus_species entries agree with the
   * full scientific names they were made from.
   */
  ghost predicate Consistent(ensembl: Dict, r: Result<Tables>) {
    r.Ok? ==>
      ValidTables(r.value) && r.value.ensembl == ensembl &&
      Derived(r.value.full, r.value.abbr, AbbrKey) &&
      Derived(r.value.full, r.value.genusSpecies, GenusKey)
  }

  lemma LoadKeeps(ensembl: Dict, lines: seq<string>)
    requires PyDict.Valid(ensembl)
    ensures Consistent(ensembl, Scan.Run(Ok(EmptyTables(ensembl)), lines, LoadStep, Failed))
  {
    forall r, line | Consistent(ensembl, r) && !Failed(r)
      ensures Consistent(ensembl, LoadStep(r, line))
    {
      StepConsistent(ensembl, r.value, line);
    }
    Scan.RunKeeps(Ok(EmptyTables(ensembl)), lines, LoadStep, Failed, r => Consistent(ensembl, r));
  }

  lemma StepConsistent(ensembl: Dict, t: Tables, line: string)
    requires Consistent(ensembl, Ok(t))
    ensures Consistent(ensembl, TaxLine(t, line))
  {
    var flds := NameFields(line);
    if |flds| >= 4 && flds[3] == "scientific name" {
      TaxLineRecords(t, line);
      var name := Lower(flds[1]);
      DerivedStep(t.full, t.abbr, AbbrKey, name, flds[0]);
      DerivedStep(t.full, t.genusSpecies, GenusKey, name, flds[0]);
    }
  }

  /** What a scientific-name line records, and that other lines record nothing. */
  lemma TaxLineRecords(t: Tables, line: string)
    requires ValidTables(t) && |NameFields(line)| >= 4
    ensures var flds := NameFields(line); var name := Lower(flds[1]); var r := TaxLine(t, line);
      r.Ok? &&
      (flds[3] != "scientific name" ==> r.value == t) &&
      (flds[3] == "scientific name" ==>
        r.value.full.m == t.full.m[name := flds[0]] &&
        (|SplitWs(name)| == 2 ==>
          r.value.abbr.m == t.abbr.m[AbbrKey(name).value := flds[0]] &&
          r.value.genusSpecies.m == t.genusSpecies.m[GenusKey(name).value := flds[0]]) &&
        (|SplitWs(name)| != 2 ==> r.value.abbr == t.abbr && r.value.genusSpecies == t.genusSpecies))
  {
  }

  /**
   * Every key of a derived table (abbreviations, genus_species) is the key form
   * of a recorded scientific name, and gives the same taxid as that name.
   */
  ghost predicate Derived(full: Dict, d: Dict, key: string -> Option<string>) {
    forall k :: k in d.m ==> exists n :: n in full.m && key(n) == Some(k) && full.m[n] == d.m[k]
  }

  lemma DerivedStep(full: Dict, d: Dict, key: string -> Option<string>, name: string, taxId: string)
    requires Derived(full, d, key)
    ensures key(name).Some? ==> Derived(full.(m := full.m[name := taxId]), d.(m := d.m[key(name).value := taxId]), key)
    ensures key(name).None? ==> Derived(full.(m := full.m[name := taxId]), d, key)
  {
    var full' := full.(m := full.m[name := taxId]);
    var d' := if key(name).Some? then d.(m := d.m[key(name).value := taxId]) else d;
    forall k | k in d'.m ensures exists n :: n in full'.m && key(n) == Some(k) && full'.m[n] == d'.m[k] {
      if key(name) == Some(k) {
        assert full'.m[name] == d'.m[k];
      } else {
        var n :| n in full.m && key(n) == Some(k) && full.m[n] == d.m[k];
        assert n != name;
        assert full'.m[n] == d'.m[k];
      }
    }
  }

  /**
   * After any prefix of names.dmp, an abbreviation or genus_species entry
   * always agrees with the full scientific name it was made from.
   */
  lemma LoadDerived(ensembl: Dict, lines: seq<string>)
    requires PyDict.Valid(ensembl) && Load(ensembl, lines).Ok?
    ensures Derived(Load(ensembl, lines).value.full, Load(ensembl, lines).value.abbr, AbbrKey)
    ensures Derived(Load(ensembl, lines).value.full, Load(ensembl, lines).value.genusSpecies, GenusKey)
  {
    LoadKeeps(ensembl, lines);
  }

  /** self.translation_dicts, in the order they are tried. */
  function TranslationDicts(t: Tables): seq<Dict> {
    [t.ensembl, t.full, t.genusSpecies, ShortNames]
  }

  /** The value of the first dict containing v. */
  function FirstHit(ds: seq<Dict>, v: string): (r: Option<string>)
    decreases |ds|
  {
    if ds == [] then None
    else if v in ds[0].m then Some(ds[0].m[v])
    else FirstHit(ds[1..], v)
  }

  /** FirstHit finds the earliest dict containing v, and fails only when none does. */
  lemma {:induction false} FirstHitSound(ds: seq<Dict>, v: string)
    ensures FirstHit(ds, v).None? <==> forall k :: 0 <= k < |ds| ==> v !in ds[k].m
    ensures FirstHit(ds, v).Some? ==>
      exists k :: 0 <= k < |ds| && v in ds[k].m &&
        FirstHit(ds, v).value == ds[k].m[v] && forall j :: 0 <= j < k ==> v !in ds[j].m
    decreases |ds|
  {
    if ds != [] && v !in ds[0].m {
      FirstHitSound(ds[1..], v);
      if FirstHit(ds, v).Some? {
        var k :| 0 <= k < |ds| - 1 && v in ds[1..][k].m &&
          FirstHit(ds, v).value == ds[1..][k].m[v] && forall j :: 0 <= j < k ==> v !in ds[1..][j].m;
        assert forall j :: 0 <= j < k + 1 ==> v !in ds[j].m by {
          forall j | 0 <= j < k + 1 ensures v !in ds[j].m {
            if j > 0 { assert ds[j] == ds[1..][j - 1]; }
          }
        }
      } else {
        forall k | 0 <= k < |ds| ensures v !in ds[k].m {
          if k > 0 { assert ds[k] == ds[1..][k - 1]; }
        }
      }
    }
  }

  /**
   * The abbreviation fallback: exactly two words whose first, with its dots
   * removed, is a single character; "<initial> <second>" is looked up among the
   * abbreviations.
   */
  function Abbreviated(t: Tables, v: string): (r: Option<string>)
    ensures r.Some? ==> exists a :: a in t.abbr.m && r.value == t.abbr.m[a]
  {
    var flds := SplitWs(v);
    if |flds| == 2 then
      var initial := RemoveChar(flds[0], '.');
      var abbrName := initial + " " + flds[1];
      if |initial| == 1 && abbrName in t.abbr.m then Some(t.abbr.m[abbrName]) else None
    else None
  }

  /** The uncached answer of translate for a normalised value. */
  function Resolve(t: Tables, v: string): Option<string> {
    var hit := FirstHit(TranslationDicts(t), v);
    if hit.Some? then hit else Abbreviated(t, v)
  }

  /** The abbreviation fallback is only reached, and only succeeds, as described. */
  lemma ResolveFallback(t: Tables, v: string)
    requires forall k :: 0 <= k < 4 ==> v !in TranslationDicts(t)[k].m
    ensures Resolve(t, v).Some? <==>
      |SplitWs(v)| == 2 && |RemoveChar(SplitWs(v)[0], '.')| == 1 &&
      RemoveChar(SplitWs(v)[0], '.') + " " + SplitWs(v)[1] in t.abbr.m
  {
    FirstHitSound(TranslationDicts(t), v);
  }

  /** Every answer comes from one of the tables. */
  lemma ResolveFromTables(t: Tables, v: string)
    requires Resolve(t, v).Some?
    ensures (exists k :: 0 <= k < 4 && v in TranslationDicts(t)[k].m && Resolve(t, v).value == TranslationDicts(t)[k].m[v])
      || (exists a :: a in t.abbr.m && Resolve(t, v).value == t.abbr.m[a])
  {
    FirstHitSound(TranslationDicts(t), v);
  }

  class Translator {
    /** The class attribute _ensembl_name. */
    var ensemblName: Dict
    var ncbiFullScientificNames: Dict
    var ncbiAbbrScientificNames: Dict
    var ncbiGenusSpecies: Dict
    var qcache: map<string, string>

    function Tabs(): Tables
      reads this
    {
      Tables(ensemblName, ncbiFullScientificNames, ncbiAbbrScientificNames, ncbiGenusSpecies)
    }

    ghost predicate Valid()
      reads this
    {
      ValidTables(Tabs())
    }

    /** Every cached answer is what an uncached lookup would give. */
    ghost predicate CacheSound()
      reads this
    {
      forall k :: k in qcache ==> Resolve(Tabs(), k) == Some(qcache[k])
    }

    /** __init__ before _get_ncbi_tax_data: the Ensembl names, empty tables, empty cache. */
    constructor ()
      ensures ensemblName == PyDict.FromItems(EnsemblItems())
      ensures PyDict.Valid(ensemblName) && Tabs() == EmptyTables(ensemblName) && qcache == map[]
    {
      EnsemblNameValid();
      ensemblName := PyDict.FromItems(EnsemblItems());
      ncbiFullScientificNames := PyDict.Empty();
      ncbiAbbrScientificNames := PyDict.Empty();
      ncbiGenusSpecies := PyDict.Empty();
      qcache := map[];
    }

    /** _get_ncbi_tax_data over the lines of names.dmp. */
    method GetNcbiTaxData(lines: seq<string>) returns (raised: Option<Error>)
      requires PyDict.Valid(ensemblName) && Tabs() == EmptyTables(ensemblName)
      modifies this`ncbiFullScientificNames, this`ncbiAbbrScientificNames, this`ncbiGenusSpecies
      ensures Load(ensemblName, lines).Ok? ==> raised == None && Tabs() == Load(ensemblName, lines).value
      ensures Load(ensemblName, lines).Err? ==> raised == Some(Load(ensemblName, lines).error)
    {
      var i := 0;
      while i < |lines|
        invariant 0 <= i <= |lines|
        invariant Load(ensemblName, lines[..i]).Ok? && Tabs() == Load(ensemblName, lines[..i]).value
      {
        Scan.RunNext(Ok(EmptyTables(ensemblName)), lines, i, LoadStep, Failed);
        var flds := NameFields(lines[i]);
        if |flds| < 4 {
          Scan.RunHalted(Ok(EmptyTables(ensemblName)), lines, i + 1, LoadStep, Failed);
          return Some(IndexError("flds[3]"));
        }
        RecordName(flds);
        i := i + 1;
      }
      assert lines[..i] == lines;
      return None;
    }

    /** The body of _get_ncbi_tax_data's loop for a line with at least four fields. */
    method RecordName(flds: seq<string>)
      requires |flds| >= 4 && Valid()
      modifies this`ncbiFullScientificNames, this`ncbiAbbrScientificNames, this`ncbiGenusSpecies
      ensures Tabs() == TaxFields(old(Tabs()), flds).value
    {
      var klass := flds[3];
      if klass == "scientific name" {
        var taxId := flds[0];
        var name := Lower(flds[1]);
        var words := SplitWs(name);
        if |words| == 2 {
          var initial := words[0][0];
          var last := words[1];
          var abbrName := [initial] + " " + last;
          ncbiAbbrScientificNames := PyDict.Put(ncbiAbbrScientificNames, abbrName, taxId);
          var genusSpecies := words[0] + "_" + words[1];
          ncbiGenusSpecies := PyDict.Put(ncbiGenusSpecies, genusSpecies, taxId);
        }
        ncbiFullScientificNames := PyDict.Put(ncbiFullScientificNames, name, taxId);
      }
    }

    /**
     * __init__: the tables from names.dmp and an empty cache, or the error
     * reading names.dmp raised.
     */
    static method Create(lines: seq<string>) returns (r: Result<Translator>)
      ensures Initial(lines).Err? ==> r == Err(Initial(lines).error)
      ensures Initial(lines).Ok? ==>
        r.Ok? && fresh(r.value) && r.value.Tabs() == Initial(lines).value &&
        r.value.qcache == map[] && r.value.Valid() && r.value.CacheSound()
    {
      EnsemblNameValid();
      var t := new Translator();
      var raised := t.GetNcbiTaxData(lines);
      if raised.Some? {
        return Err(raised.value);
      }
      return Ok(t);
    }

    /**
     * translate(val): the cached answer if there is one; otherwise the first
     * translation dict that knows the normalised value, then the abbreviation
     * fallback.  Only successful answers are cached.
     */
    method Translate(val: string) returns (r: Option<string>)
      requires Valid()
      modifies this`qcache
      ensures var v := Normalise(val);
        (v in old(qcache) ==> r == Some(old(qcache)[v]) && qcache == old(qcache)) &&
        (v !in old(qcache) ==>
           r == Resolve(Tabs(), v) &&
           qcache == if r.Some? then old(qcache)[v := r.value] else old(qcache))
      ensures old(CacheSound()) ==> CacheSound() && r == Resolve(Tabs(), Normalise(val))
    {
      var v := Normalise(val);
      if v in qcache {
        return Some(qcache[v]);
      }
      r := Lookup(v);
      if r.Some? {
        qcache := qcache[v := r.value];
      }
    }

    /**
     * The uncached part of translate: the four translation dicts in order,
     * then the abbreviation fallback.
     */
    method Lookup(v: string) returns (r: Option<string>)
      requires Valid()
      ensures r == Resolve(Tabs(), v)
    {
      var dicts := TranslationDicts(Tabs());
      var k := 0;
      while k < |dicts|
        invariant 0 <= k <= |dicts|
        invariant FirstHit(dicts, v) == FirstHit(dicts[k..], v)
      {
        assert dicts[k..][1..] == dicts[k + 1..];
        if v in dicts[k].m {
          return Some(dicts[k].m[v]);
        }
        k := k + 1;
      }
      assert Resolve(Tabs(), v) == Abbreviated(Tabs(), v);
      var flds := SplitWs(v);
      if |flds| == 2 {
        var initial := RemoveChar(flds[0], '.');
        var last := flds[1];
        if |initial| == 1 {
          var abbrName := initial + " " + last;
          if abbrName in ncbiAbbrScientificNames.m {
            return Some(ncbiAbbrScientificNames.m[abbrName]);
          }
        }
      }
      return None;
    }

    /** get_ensembl_name: the Ensembl name listed for a taxid, or None. */
    function GetEnsemblName(taxid: string): Option<string>
      requires Valid()
      reads this
    {
      var f := PyDict.Flip(ensemblName);
      if taxid in f.m then Some(f.m[taxid]) else None
    }

    /** get_ensembl_name answers with a listed Ensembl name of that taxid, and fails only if there is none. */
    lemma EnsemblNameSound(taxid: string)
      requires Valid()
      ensures GetEnsemblName(taxid).Some? ==>
        GetEnsemblName(taxid).value in ensemblName.m && ensemblName.m[GetEnsemblName(taxid).value] == taxid
      ensures GetEnsemblName(taxid).None? <==> forall k :: k in ensemblName.m ==> ensemblName.m[k] != taxid
    {
      PyDict.FlipSound(ensemblName, taxid);
    }

    /** get_genus_species: the genus_species name recorded for a taxid, or None. */
    function GetGenusSpecies(taxid: string): (r: Option<string>)
      requires Valid()
      reads this
    {
      var f := PyDict.Flip(ncbiGenusSpecies);
      if taxid in f.m then Some(f.m[taxid]) else None
    }

    /** get_genus_species answers with a genus_species name of that taxid, and fails only if there is none. */
    lemma GenusSpeciesSound(taxid: string)
      requires Valid()
      ensures GetGenusSpecies(taxid).Some? ==>
        GetGenusSpecies(taxid).value in ncbiGenusSpecies.m && ncbiGenusSpecies.m[GetGenusSpecies(taxid).value] == taxid
      ensures GetGenusSpecies(taxid).None? <==> forall k :: k in ncbiGenusSpecies.m ==> ncbiGenusSpecies.m[k] != taxid
    {
      PyDict.FlipSound(ncbiGenusSpecies, taxid);
    }
  }
}
