/**
 * The per-row normaliser of `loadMaterialData`: a loosely keyed spreadsheet
 * row becomes a fixed eleven-field record. Fields are found through fixed
 * alias lists (`??` for numbers, `||` for the material) and, for material and
 * wavelength, through a case-insensitive search of the row's column labels.
 */
module RowNormalizer {
  import opened Wrappers
  import opened JsValues
  import opened NumberParsing

  // ---------------------------------------------------------------------
  // Rows
  // ---------------------------------------------------------------------

  /** One column of a row: its header label and the cell under it. */
  datatype Cell = Cell(header: string, value: Value)

  /** A row as `sheet_to_json` returns it, its cells in `Object.keys` order. */
  type Row = seq<Cell>

  /** `Object.keys(row)`. */
  function Labels(row: Row): (r: seq<string>)
    ensures |r| == |row|
    ensures forall i :: 0 <= i < |row| ==> r[i] == row[i].header
  {
    if row == [] then [] else [row[0].header] + Labels(row[1..])
  }

  /** `row[key]`: the cell under that label, or `undefined` when the row has no such column. */
  function Lookup(row: Row, key: string): (v: Value)
    ensures (forall i :: 0 <= i < |row| ==> row[i].header != key) ==> v == Undefined
    ensures forall i ::
      (0 <= i < |row| && row[i].header == key && forall j :: 0 <= j < i ==> row[j].header != key)
      ==> v == row[i].value
  {
    if row == [] then Undefined
    else if row[0].header == key then row[0].value
    else
      assert forall i :: 0 <= i < |row| - 1 ==> row[1..][i] == row[i + 1];
      Lookup(row[1..], key)
  }

  /** `row[keys[0]], row[keys[1]], ...`: the operands of an alias chain. */
  function Lookups(row: Row, keys: seq<string>): seq<Value> {
    seq(|keys|, i requires 0 <= i < |keys| => Lookup(row, keys[i]))
  }

  /** `v` is what one of the row's cells holds. */
  predicate IsCellValue(row: Row, v: Value) {
    exists i :: 0 <= i < |row| && row[i].value == v
  }

  // ---------------------------------------------------------------------
  // Case-insensitive label tests
  // ---------------------------------------------------------------------

  /**
   * The case folding that `/.../i` applies, restricted to the letters of the
   * patterns used here: ASCII capitals and the Greek capital lambda.
   */
  function Fold(c: char): char {
    if 'A' <= c <= 'Z' then (c as int + 32) as char
    else if c == 'Λ' then 'λ'
    else c
  }

  /** `pat` occurs in `key` at offset `i`, ignoring case. */
  predicate MatchesAt(key: string, pat: string, i: int) {
    0 <= i && i + |pat| <= |key| &&
    forall j :: 0 <= j < |pat| ==> Fold(key[i + j]) == Fold(pat[j])
  }

  /** `new RegExp(pat, 'i').test(key)` for a pattern made of plain letters. */
  function ContainsFolded(key: string, pat: string): (r: bool)
    ensures r <==> exists i :: MatchesAt(key, pat, i)
    decreases |key|
  {
    if |key| < |pat| then false
    else if MatchesAt(key, pat, 0) then true
    else
      var r := ContainsFolded(key[1..], pat);
      assert forall i :: MatchesAt(key[1..], pat, i) <==> MatchesAt(key, pat, i + 1);
      assert forall i :: MatchesAt(key, pat, i) ==> i == 0 || MatchesAt(key[1..], pat, i - 1);
      r
  }

  /** The label matches at least one of the alternatives of a pattern `a|b|c`. */
  predicate MatchesAny(key: string, pats: seq<string>) {
    exists j :: 0 <= j < |pats| && ContainsFolded(key, pats[j])
  }

  /** Index of the first label that matches the pattern: `keys.findIndex(k => re.test(k))`. */
  function FindIndex(keys: seq<string>, pats: seq<string>): (r: Option<nat>)
    ensures r.Some? ==> r.value < |keys| && MatchesAny(keys[r.value], pats)
    ensures r.Some? ==> forall j :: 0 <= j < r.value ==> !MatchesAny(keys[j], pats)
    ensures r.None? ==> forall j :: 0 <= j < |keys| ==> !MatchesAny(keys[j], pats)
  {
    if keys == [] then None
    else if MatchesAny(keys[0], pats) then Some(0)
    else
      match FindIndex(keys[1..], pats)
      case None => None
      case Some(i) => Some(i + 1)
  }

  /** `keys.find(k => re.test(k))`. */
  function FindKey(keys: seq<string>, pats: seq<string>): Option<string> {
    match FindIndex(keys, pats)
    case None => None
    case Some(i) => Some(keys[i])
  }

  // ---------------------------------------------------------------------
  // Aliases and patterns
  // ---------------------------------------------------------------------

  const MaterialAliases: seq<string> := ["Material", "material", "MAT"]
  const WavelengthAliases: seq<string> := ["Wavelength", "wavelength", "λ", "lambda"]
  const ReEpsAliases: seq<string> := ["Re(ε)", "Re_e", "Re e", "Reeps"]
  const ImEpsAliases: seq<string> := ["Im(ε)", "Im_e", "Im e", "Imeps"]
  const QplAliases: seq<string> := ["Q_PL", "Q PL", "Q-PL"]
  const QconAliases: seq<string> := ["Q_con", "Q Con", "Q-con"]

  const MaterialPattern: seq<string> := ["material"]
  const MatPattern: seq<string> := ["mat"]
  const WavelengthPattern: seq<string> := ["wavelength", "lambda", "λ"]

  /** `materialKey`: the first label matching /material/i, else the first matching /mat/i. */
  function MaterialKey(row: Row): Option<string> {
    match FindKey(Labels(row), MaterialPattern)
    case Some(k) => Some(k)
    case None => FindKey(Labels(row), MatPattern)
  }

  /** `wavelengthKey`: the first label matching /wavelength|lambda|λ/i. */
  function WavelengthKey(row: Row): Option<string> {
    FindKey(Labels(row), WavelengthPattern)
  }

  // ---------------------------------------------------------------------
  // The normalised record
  // ---------------------------------------------------------------------

  /** The fixed output schema; `None` is a JSON `null`. */
  datatype Record = Record(
    material: Value,
    wavelength: Option<real>,
    n: Option<real>,
    k: Option<real>,
    Re_e: Option<real>,
    Im_e: Option<real>,
    Q: Option<real>,
    PL: Option<real>,
    Con: Option<real>,
    Q_PL: Option<real>,
    Q_con: Option<real>)

  /** The last operand of the material chain: `materialKey ? row[materialKey] : 'Unknown'`. */
  function MaterialDefault(row: Row): Value {
    match MaterialKey(row)
    case Some(k) => Lookup(row, k)
    case None => Str("Unknown")
  }

  /** `row['Material'] || row['material'] || row['MAT'] || (materialKey ? row[materialKey] : 'Unknown')`. */
  function Material(row: Row): Value {
    Or(Lookups(row, MaterialAliases) + [MaterialDefault(row)])
  }

  /** The last operand of the wavelength chain: `wavelengthKey ? row[wavelengthKey] : null`. */
  function WavelengthDefault(row: Row): Value {
    match WavelengthKey(row)
    case Some(k) => Lookup(row, k)
    case None => Null
  }

  /** The wavelength chain: the four fixed aliases with `??`, then the matched label or null. */
  function WavelengthValue(row: Row): Value {
    Coalesce(Lookups(row, WavelengthAliases) + [WavelengthDefault(row)])
  }

  /** `getNumber(row[a0] ?? row[a1] ?? ...)` for a numeric field with a fixed alias list. */
  function NumericField(row: Row, aliases: seq<string>): Option<real>
    requires |aliases| > 0
  {
    GetNumber(Coalesce(Lookups(row, aliases)))
  }

  /** The callback of `json.map`: one raw row to one record. */
  function NormalizeRow(row: Row): Record {
    Record(
      material := Material(row),
      wavelength := GetNumber(WavelengthValue(row)),
      n := NumericField(row, ["n"]),
      k := NumericField(row, ["k"]),
      Re_e := NumericField(row, ReEpsAliases),
      Im_e := NumericField(row, ImEpsAliases),
      Q := NumericField(row, ["Q"]),
      PL := NumericField(row, ["PL"]),
      Con := NumericField(row, ["Con"]),
      Q_PL := NumericField(row, QplAliases),
      Q_con := NumericField(row, QconAliases))
  }

  /** `json.map(...)`: one record per raw row, in the same order. */
  function Normalize(rows: seq<Row>): (r: seq<Record>)
    ensures |r| == |rows|
    ensures forall i :: 0 <= i < |rows| ==> r[i] == NormalizeRow(rows[i])
  {
    if rows == [] then [] else [NormalizeRow(rows[0])] + Normalize(rows[1..])
  }

  // ---------------------------------------------------------------------
  // Properties of lookups and label tests
  // ---------------------------------------------------------------------

  /** A lookup that finds something returns the cell of a column with exactly that label. */
  lemma {:induction false} LookupIsCell(row: Row, key: string)
    requires Lookup(row, key) != Undefined || exists i :: 0 <= i < |row| && row[i].header == key
    ensures exists i :: 0 <= i < |row| && row[i].header == key && Lookup(row, key) == row[i].value
  {
    if row[0].header != key {
      assert row[1..] != [] && (Lookup(row[1..], key) != Undefined || exists i :: 0 <= i < |row[1..]| && row[1..][i].header == key) by {
        if Lookup(row[1..], key) == Undefined {
          var i :| 0 <= i < |row| && row[i].header == key;
          assert row[1..][i - 1].header == key;
        }
      }
      LookupIsCell(row[1..], key);
      var i :| 0 <= i < |row[1..]| && row[1..][i].header == key && Lookup(row[1..], key) == row[1..][i].value;
      assert row[i + 1].header == key;
    }
  }

  /** Every label that contains "material" also contains "mat", ignoring case. */
  lemma MaterialContainsMat(key: string)
    requires ContainsFolded(key, "material")
    ensures ContainsFolded(key, "mat")
  {
    var i :| MatchesAt(key, "material", i);
    assert forall j :: 0 <= j < 3 ==> Fold(key[i + j]) == Fold("material"[j]);
    assert forall j :: 0 <= j < 3 ==> "mat"[j] == "material"[j];
    assert MatchesAt(key, "mat", i);
  }

  /** The three fixed material aliases all contain "mat", ignoring case. */
  lemma MaterialAliasesContainMat()
    ensures forall a :: a in MaterialAliases ==> ContainsFolded(a, "mat")
  {
    assert MatchesAt("Material", "mat", 0);
    assert MatchesAt("material", "mat", 0);
    assert MatchesAt("MAT", "mat", 0);
  }

  /** `materialKey` is missing exactly when no label contains "mat", ignoring case. */
  lemma MaterialKeyMissingIff(row: Row)
    ensures MaterialKey(row).None? <==> forall i :: 0 <= i < |row| ==> !ContainsFolded(row[i].header, "mat")
  {
    var keys := Labels(row);
    if MaterialKey(row).None? {
      assert FindIndex(keys, MatPattern).None?;
      forall i | 0 <= i < |row| ensures !ContainsFolded(row[i].header, "mat") {
        assert !MatchesAny(keys[i], MatPattern);
        assert MatPattern[0] == "mat" && keys[i] == row[i].header;
      }
    } else {
      match FindIndex(keys, MaterialPattern)
      case Some(i) =>
        assert ContainsFolded(keys[i], "material");
        MaterialContainsMat(keys[i]);
      case None =>
        var i := FindIndex(keys, MatPattern).value;
        assert ContainsFolded(keys[i], "mat");
    }
  }

  /** The key `keys.find` returns is one of the row's labels. */
  lemma FoundKeyIsLabel(row: Row, pats: seq<string>)
    requires FindKey(Labels(row), pats).Some?
    ensures exists i :: 0 <= i < |row| && row[i].header == FindKey(Labels(row), pats).value
  {
    var i := FindIndex(Labels(row), pats).value;
    assert row[i].header == Labels(row)[i];
  }

  // ---------------------------------------------------------------------
  // Properties of the material field
  // ---------------------------------------------------------------------

  /** `||` semantics: the first truthy fixed alias is the material, later ones are ignored. */
  lemma MaterialFirstTruthyAlias(row: Row, i: nat)
    requires i < |MaterialAliases| && IsTruthy(Lookup(row, MaterialAliases[i]))
    requires forall j :: 0 <= j < i ==> !IsTruthy(Lookup(row, MaterialAliases[j]))
    ensures Material(row) == Lookup(row, MaterialAliases[i])
  {
    OrFirstTruthy(Lookups(row, MaterialAliases) + [MaterialDefault(row)], i);
  }

  /**
   * When no fixed alias is truthy, the material is the cell under the first
   * label matching /material/i (else /mat/i), whatever it holds, even null;
   * with no such label it is "Unknown".
   */
  lemma MaterialFallback(row: Row)
    requires forall j :: 0 <= j < |MaterialAliases| ==> !IsTruthy(Lookup(row, MaterialAliases[j]))
    ensures MaterialKey(row).Some? ==> Material(row) == Lookup(row, MaterialKey(row).value)
    ensures MaterialKey(row).None? ==> Material(row) == Str("Unknown")
  {
    OrNoneTruthy(Lookups(row, MaterialAliases) + [MaterialDefault(row)]);
  }

  /** A row with no label containing "mat" (any case) has material "Unknown". */
  lemma MaterialUnknownWithoutMatLabel(row: Row)
    requires forall i :: 0 <= i < |row| ==> !ContainsFolded(row[i].header, "mat")
    ensures Material(row) == Str("Unknown")
  {
    MaterialAliasesContainMat();
    forall j | 0 <= j < |MaterialAliases| ensures !IsTruthy(Lookup(row, MaterialAliases[j])) {
      assert Lookup(row, MaterialAliases[j]) == Undefined;
    }
    MaterialKeyMissingIff(row);
    MaterialFallback(row);
  }

  /** Some fixed alias is truthy: the material is then the first truthy alias, a cell of the row. */
  lemma MaterialFromAliasCell(row: Row, j: nat)
    requires j < |MaterialAliases| && IsTruthy(Lookup(row, MaterialAliases[j]))
    ensures IsCellValue(row, Material(row))
  {
    var vs := Lookups(row, MaterialAliases) + [MaterialDefault(row)];
    assert vs[j] == Lookup(row, MaterialAliases[j]);
    OrTruthyBefore(vs, j);
    var k := OrIndex(vs);
    var key := MaterialAliases[k];
    assert Material(row) == Lookup(row, key) && IsTruthy(Lookup(row, key));
    LookupIsCell(row, key);
    var i :| 0 <= i < |row| && row[i].header == key && Lookup(row, key) == row[i].value;
    assert row[i].value == Material(row);
  }

  /** The matched label's cell is a cell of the row. */
  lemma MaterialFromMatchedCell(row: Row)
    requires forall j :: 0 <= j < |MaterialAliases| ==> !IsTruthy(Lookup(row, MaterialAliases[j]))
    requires MaterialKey(row).Some?
    ensures IsCellValue(row, Material(row))
  {
    MaterialFallback(row);
    var k := MaterialKey(row).value;
    if FindKey(Labels(row), MaterialPattern).Some? {
      FoundKeyIsLabel(row, MaterialPattern);
    } else {
      FoundKeyIsLabel(row, MatPattern);
    }
    LookupIsCell(row, k);
  }

  /**
   * A row with some label containing "mat" takes its material from one of
   * its own cells, so "Unknown" then appears only if a cell holds it.
   */
  lemma MaterialFromCellWithMatLabel(row: Row)
    requires exists i :: 0 <= i < |row| && ContainsFolded(row[i].header, "mat")
    ensures IsCellValue(row, Material(row))
  {
    if j :| 0 <= j < |MaterialAliases| && IsTruthy(Lookup(row, MaterialAliases[j])) {
      MaterialFromAliasCell(row, j);
    } else {
      MaterialKeyMissingIff(row);
      MaterialFromMatchedCell(row);
    }
  }

  // ---------------------------------------------------------------------
  // Properties of the numeric fields
  // ---------------------------------------------------------------------

  /** `??` semantics: the first alias whose cell is not null/undefined decides the field, even if it holds 0 or "". */
  lemma NumericFieldFirstPresent(row: Row, aliases: seq<string>, i: nat)
    requires i < |aliases| && !IsNullish(Lookup(row, aliases[i]))
    requires forall j :: 0 <= j < i ==> IsNullish(Lookup(row, aliases[j]))
    ensures NumericField(row, aliases) == GetNumber(Lookup(row, aliases[i]))
  {
    CoalesceFirstPresent(Lookups(row, aliases), i);
  }

  /** A numeric field none of whose aliases is present (or all are null) is null. */
  lemma NumericFieldAllAbsent(row: Row, aliases: seq<string>)
    requires |aliases| > 0
    requires forall j :: 0 <= j < |aliases| ==> IsNullish(Lookup(row, aliases[j]))
    ensures NumericField(row, aliases) == None
  {
    CoalesceAllNullish(Lookups(row, aliases));
  }

  /** `n`, `k`, `Q`, `PL` and `Con` each read one fixed label and nothing else. */
  lemma SingleLabelFields(row: Row)
    ensures NormalizeRow(row).n == GetNumber(Lookup(row, "n"))
    ensures NormalizeRow(row).k == GetNumber(Lookup(row, "k"))
    ensures NormalizeRow(row).Q == GetNumber(Lookup(row, "Q"))
    ensures NormalizeRow(row).PL == GetNumber(Lookup(row, "PL"))
    ensures NormalizeRow(row).Con == GetNumber(Lookup(row, "Con"))
  {
  }

  /** The first present fixed wavelength alias decides the wavelength; the label search is not consulted. */
  lemma WavelengthFirstPresentAlias(row: Row, i: nat)
    requires i < |WavelengthAliases| && !IsNullish(Lookup(row, WavelengthAliases[i]))
    requires forall j :: 0 <= j < i ==> IsNullish(Lookup(row, WavelengthAliases[j]))
    ensures WavelengthValue(row) == Lookup(row, WavelengthAliases[i])
  {
    CoalesceFirstPresent(Lookups(row, WavelengthAliases) + [WavelengthDefault(row)], i);
  }

  /**
   * Only when all four fixed wavelength aliases are null/undefined does the
   * first label matching /wavelength|lambda|λ/i supply the wavelength.
   */
  lemma WavelengthFallback(row: Row)
    requires forall j :: 0 <= j < |WavelengthAliases| ==> IsNullish(Lookup(row, WavelengthAliases[j]))
    ensures WavelengthKey(row).Some? ==> WavelengthValue(row) == Lookup(row, WavelengthKey(row).value)
    ensures WavelengthKey(row).None? ==> WavelengthValue(row) == Null
  {
    CoalesceLast(Lookups(row, WavelengthAliases) + [WavelengthDefault(row)]);
  }

  // ---------------------------------------------------------------------
  // Whole rows
  // ---------------------------------------------------------------------

  /** Every label the normaliser reads directly. */
  const KnownLabels: seq<string> :=
    MaterialAliases + WavelengthAliases + ["n", "k"] + ReEpsAliases + ImEpsAliases
    + ["Q", "PL", "Con"] + QplAliases + QconAliases

  /** The record of a row with nothing recognisable: material "Unknown", every number null. */
  const UnknownRecord: Record :=
    Record(Str("Unknown"), None, None, None, None, None, None, None, None, None, None)

  /**
   * A row whose labels are none of the known aliases and match neither
   * /mat/i nor /wavelength|lambda|λ/i normalises to the "Unknown" record, not
   * an error; the empty row is one such row.
   */
  lemma UnrecognisedRow(row: Row)
    requires forall i :: 0 <= i < |row| ==> row[i].header !in KnownLabels
    requires forall i :: 0 <= i < |row| ==> !ContainsFolded(row[i].header, "mat")
    requires forall i :: 0 <= i < |row| ==> !MatchesAny(row[i].header, WavelengthPattern)
    ensures NormalizeRow(row) == UnknownRecord
  {
    MaterialUnknownWithoutMatLabel(row);
    UnrecognisedWavelength(row);
    UnrecognisedSingleLabels(row);
    UnrecognisedMultiLabels(row);
    var r := NormalizeRow(row);
    assert r.material == Str("Unknown") && r.wavelength == None;
    assert r.n == None && r.k == None && r.Q == None && r.PL == None && r.Con == None;
    assert r.Re_e == None && r.Im_e == None && r.Q_PL == None && r.Q_con == None;
  }

  /** With no wavelength alias and no matching label, the wavelength is null. */
  lemma UnrecognisedWavelength(row: Row)
    requires forall i :: 0 <= i < |row| ==> row[i].header !in KnownLabels
    requires forall i :: 0 <= i < |row| ==> !MatchesAny(row[i].header, WavelengthPattern)
    ensures WavelengthValue(row) == Null
  {
    assert WavelengthKey(row).None? by {
      assert FindIndex(Labels(row), WavelengthPattern).None?;
    }
    AliasesAbsent(row, WavelengthAliases);
    WavelengthFallback(row);
  }

  /** With none of the known labels, `n`, `k`, `Q`, `PL` and `Con` are null. */
  lemma UnrecognisedSingleLabels(row: Row)
    requires forall i :: 0 <= i < |row| ==> row[i].header !in KnownLabels
    ensures NumericField(row, ["n"]) == None && NumericField(row, ["k"]) == None
    ensures NumericField(row, ["Q"]) == None && NumericField(row, ["PL"]) == None
    ensures NumericField(row, ["Con"]) == None
  {
    AliasesAbsent(row, ["n"]);
    AliasesAbsent(row, ["k"]);
    AliasesAbsent(row, ["Q"]);
    AliasesAbsent(row, ["PL"]);
    AliasesAbsent(row, ["Con"]);
  }

  /** With none of the known labels, the permittivity and ratio fields are null. */
  lemma UnrecognisedMultiLabels(row: Row)
    requires forall i :: 0 <= i < |row| ==> row[i].header !in KnownLabels
    ensures NumericField(row, ReEpsAliases) == None && NumericField(row, ImEpsAliases) == None
    ensures NumericField(row, QplAliases) == None && NumericField(row, QconAliases) == None
  {
    AliasesAbsent(row, ReEpsAliases);
    AliasesAbsent(row, ImEpsAliases);
    AliasesAbsent(row, QplAliases);
    AliasesAbsent(row, QconAliases);
  }

  /** A numeric field whose aliases are all missing from the row is null. */
  lemma AliasesAbsent(row: Row, aliases: seq<string>)
    requires |aliases| > 0
    requires forall i :: 0 <= i < |row| ==> row[i].header !in aliases
    ensures forall j :: 0 <= j < |aliases| ==> Lookup(row, aliases[j]) == Undefined
    ensures NumericField(row, aliases) == None
  {
    NumericFieldAllAbsent(row, aliases);
  }

  /**
   * When no fixed alias is truthy and the cell under `materialKey` is null,
   * the material is null, not "Unknown".
   */
  lemma NullMatchedCell(row: Row)
    requires forall j :: 0 <= j < |MaterialAliases| ==> !IsTruthy(Lookup(row, MaterialAliases[j]))
    requires MaterialKey(row).Some? && Lookup(row, MaterialKey(row).value) == Null
    ensures Material(row) == Null
  {
    MaterialFallback(row);
  }

  /** In a row whose only material column is a null "Material" cell, the material is null, not "Unknown". */
  lemma BlankMaterialCell()
    ensures Material([Cell("Material", Null), Cell("Wavelength", Num(500.0))]) == Null
  {
    var row := [Cell("Material", Null), Cell("Wavelength", Num(500.0))];
    assert Lookup(row, "Material") == Null;
    assert Lookup(row, "material") == Undefined && Lookup(row, "MAT") == Undefined;
    assert MatchesAt("Material", "material", 0);
    assert MaterialPattern[0] == "material" && Labels(row)[0] == "Material";
    assert MatchesAny(Labels(row)[0], MaterialPattern);
    assert MaterialKey(row) == Some("Material");
    MaterialFallback(row);
  }

  /** A truthy "material" cell wins over a null "Material" cell: the chain skips falsy operands. */
  lemma TruthyAliasAfterBlankMaterial()
    ensures Material([Cell("Material", Null), Cell("material", Str("Gold"))]) == Str("Gold")
  {
    var row := [Cell("Material", Null), Cell("material", Str("Gold"))];
    assert Lookup(row, "Material") == Null;
    assert Lookup(row, "material") == Str("Gold");
    MaterialFirstTruthyAlias(row, 1);
  }

  /** An example row: a material, a wavelength with a unit, and n and k. */
  const GoldExample: Row :=
    [Cell("Material", Str("Gold")), Cell("Wavelength", Str("600nm")), Cell("n", Num(0.2)), Cell("k", Num(3.5))]

  /** The example's material and wavelength come from the first fixed aliases; "600nm" reads as 600. */
  lemma GoldMaterialAndWavelength()
    ensures Material(GoldExample) == Str("Gold")
    ensures GetNumber(WavelengthValue(GoldExample)) == Some(600.0)
  {
    assert Lookup(GoldExample, "Material") == Str("Gold");
    MaterialFirstTruthyAlias(GoldExample, 0);
    assert Lookup(GoldExample, "Wavelength") == Str("600nm");
    WavelengthFirstPresentAlias(GoldExample, 0);
    GetNumberNanometres();
  }

  /** The example's labels have lengths 8, 10, 1 and 1, so no 4- or 5-character alias is among them. */
  lemma GoldLabelLengths()
    ensures forall i :: 0 <= i < |GoldExample| ==> |GoldExample[i].header| !in {4, 5}
  {
    assert |GoldExample[0].header| == 8 && |GoldExample[1].header| == 10;
    assert |GoldExample[2].header| == 1 && |GoldExample[3].header| == 1;
  }

  /** The example has no column for either permittivity field. */
  lemma GoldPermittivityNull()
    ensures NumericField(GoldExample, ReEpsAliases) == None
    ensures NumericField(GoldExample, ImEpsAliases) == None
  {
    GoldLabelLengths();
    assert forall j :: 0 <= j < 4 ==> |ReEpsAliases[j]| in {4, 5} && |ImEpsAliases[j]| in {4, 5};
    AliasesAbsent(GoldExample, ReEpsAliases);
    AliasesAbsent(GoldExample, ImEpsAliases);
  }

  /** The example has no column for either quantum-yield ratio field. */
  lemma GoldRatiosNull()
    ensures NumericField(GoldExample, QplAliases) == None
    ensures NumericField(GoldExample, QconAliases) == None
  {
    GoldLabelLengths();
    assert forall j :: 0 <= j < 3 ==> |QplAliases[j]| in {4, 5} && |QconAliases[j]| in {4, 5};
    AliasesAbsent(GoldExample, QplAliases);
    AliasesAbsent(GoldExample, QconAliases);
  }

  /** The example's n and k are its numeric cells. */
  lemma GoldOpticalConstants()
    ensures NumericField(GoldExample, ["n"]) == Some(0.2)
    ensures NumericField(GoldExample, ["k"]) == Some(3.5)
  {
    assert Lookup(GoldExample, "n") == Num(0.2);
    NumericFieldFirstPresent(GoldExample, ["n"], 0);
    assert Lookup(GoldExample, "k") == Num(3.5);
    NumericFieldFirstPresent(GoldExample, ["k"], 0);
  }

  /** The example has no Q, PL or Con column. */
  lemma GoldYieldsNull()
    ensures NumericField(GoldExample, ["Q"]) == None
    ensures NumericField(GoldExample, ["PL"]) == None
    ensures NumericField(GoldExample, ["Con"]) == None
  {
    assert Lookup(GoldExample, "Q") == Undefined;
    NumericFieldAllAbsent(GoldExample, ["Q"]);
    assert Lookup(GoldExample, "PL") == Undefined;
    NumericFieldAllAbsent(GoldExample, ["PL"]);
    assert Lookup(GoldExample, "Con") == Undefined;
    NumericFieldAllAbsent(GoldExample, ["Con"]);
  }

  /** The example row normalises to the record with every absent field null. */
  lemma GoldRow()
    ensures NormalizeRow(GoldExample)
         == Record(Str("Gold"), Some(600.0), Some(0.2), Some(3.5), None, None, None, None, None, None, None)
  {
    GoldMaterialAndWavelength();
    GoldPermittivityNull();
    GoldRatiosNull();
    GoldOpticalConstants();
    GoldYieldsNull();
  }
}
