/**
 * `parse_nist_file` from test/reference/convert_nist_data.py: a line-oriented
 * reader for raw NIST X-ray scattering-factor tables. Comment lines (those
 * that start with `#` once stripped) carry the atomic number, the density
 * and the material name; every other line with at least three
 * whitespace-separated numbers contributes one (energy, f1, f2) row.
 *
 * The file is given as its lines. Python's `float()` and `int()` are not
 * modelled: they are the two partial parsers in `NumberParsers`.
 */
module NistParse {
  import opened Wrappers
  import opened PyText

  /** Python's `float(text)` and `int(text)`: `None` where Python raises ValueError. */
  datatype NumberParsers = NumberParsers(toFloat: string -> Option<real>, toInt: string -> Option<int>)

  /** The ValueError that escapes `parse_nist_file`, with the text that failed to convert. */
  datatype ParseError =
    | InvalidAtomicNumber(text: string)
    | InvalidDensity(text: string)

  /** The `metadata` entry of the returned dictionary. */
  datatype Metadata = Metadata(
    material: string,
    source: string,
    atomicNumber: Option<int>,
    densityGcm3: Option<real>,
    description: string,
    columns: seq<(string, string)>)

  /** The dictionary `parse_nist_file` returns: three parallel columns and the metadata. */
  datatype NistData = NistData(energyKeV: seq<real>, f1: seq<real>, f2: seq<real>, metadata: Metadata)

  const Source := "NIST X-ray Form Factor, Attenuation and Scattering Tables"
  const DescriptionPrefix := "X-ray optical constants for "
  const ColumnDescriptions: seq<(string, string)> := [
    ("energy_keV", "Photon energy in keV"),
    ("f1", "Real part of atomic scattering factor"),
    ("f2", "Imaginary part of atomic scattering factor")]

  /** The local variables of the loop: the three lists and the metadata read so far. */
  datatype Scan = Scan(
    energyKeV: seq<real>, f1: seq<real>, f2: seq<real>,
    material: string, density: Option<real>, atomicNumber: Option<int>)

  const Initial := Scan([], [], [], "", None, None)

  /** What one line of the file is, following the branches of the loop body in order. */
  datatype LineKind =
    | AtomicNumberLine(text: string, z: Option<int>)       // a comment holding "Z ="
    | DensityLine(text: string, density: Option<real>)     // a comment holding "Density:" and not "Z ="
    | NameLine(name: string)                               // any other comment holding "(" and ")"
    | OtherComment
    | DataRow(energy: real, f1: real, f2: real)            // three leading numbers
    | Skipped                                              // blank, too short, or not numeric

  predicate IsComment(raw: string) {
    StartsWith(Strip(raw), "#")
  }

  /** The stripped text after the first "Z =", up to the next one. */
  function AtomicNumberText(line: string): string
    requires Contains(line, "Z =")
  {
    SplitHasSecondPiece(line, "Z =");
    Strip(Split(line, "Z =")[1])
  }

  /** The stripped text after the first "Density:", up to the next one and before any "g/cm3". */
  function DensityText(line: string): string
    requires Contains(line, "Density:")
  {
    SplitHasSecondPiece(line, "Density:");
    Strip(Split(Split(line, "Density:")[1], "g/cm3")[0])
  }

  /** The text between the first "(" and the first ")", or "" when ")" comes first. */
  function NameText(line: string): string {
    match (Find(line, "("), Find(line, ")"))
    case (Some(start), Some(end)) => Slice(line, start + 1, end)
    case _ => ""
  }

  function Classify(raw: string, num: NumberParsers): LineKind {
    var line := Strip(raw);
    if StartsWith(line, "#") then
      if Contains(line, "Z =") then
        var text := AtomicNumberText(line);
        AtomicNumberLine(text, num.toInt(text))
      else if Contains(line, "Density:") then
        var text := DensityText(line);
        DensityLine(text, num.toFloat(text))
      else if Contains(line, "(") && Contains(line, ")") then
        NameLine(NameText(line))
      else OtherComment
    else if line != [] then
      var parts := Tokens(line);
      if |parts| >= 3 then
        match (num.toFloat(parts[0]), num.toFloat(parts[1]), num.toFloat(parts[2]))
        case (Some(e), Some(a), Some(b)) => DataRow(e, a, b)
        case _ => Skipped
      else Skipped
    else Skipped
  }

  /** One iteration of the loop, on the state the previous iterations left. */
  function Step(st: Scan, raw: string, num: NumberParsers): Result<Scan, ParseError> {
    match Classify(raw, num)
    case AtomicNumberLine(text, z) =>
      if z.Some? then Ok(st.(atomicNumber := z)) else Err(InvalidAtomicNumber(text))
    case DensityLine(text, d) =>
      if d.Some? then Ok(st.(density := d)) else Err(InvalidDensity(text))
    case NameLine(name) =>
      if st.material == "" then Ok(st.(material := name)) else Ok(st)
    case OtherComment => Ok(st)
    case DataRow(e, a, b) =>
      Ok(st.(energyKeV := st.energyKeV + [e], f1 := st.f1 + [a], f2 := st.f2 + [b]))
    case Skipped => Ok(st)
  }

  /** The loop run over all of `lines`: the first raising line ends it. */
  function Run(lines: seq<string>, num: NumberParsers): Result<Scan, ParseError>
    decreases |lines|
  {
    if lines == [] then Ok(Initial)
    else
      match Run(lines[..|lines| - 1], num)
      case Err(e) => Err(e)
      case Ok(st) => Step(st, lines[|lines| - 1], num)
  }

  /** The dictionary built from the final state of the loop. */
  function Assemble(st: Scan): NistData {
    NistData(st.energyKeV, st.f1, st.f2,
      Metadata(st.material, Source, st.atomicNumber, st.density,
               DescriptionPrefix + st.material, ColumnDescriptions))
  }

  /** What `parse_nist_file` returns, or the error it raises. */
  function ParseNist(lines: seq<string>, num: NumberParsers): Result<NistData, ParseError> {
    match Run(lines, num)
    case Ok(st) => Ok(Assemble(st))
    case Err(e) => Err(e)
  }

  /** Once a prefix has raised, no further line changes the outcome. */
  lemma {:induction false} RunStopsAtError(lines: seq<string>, n: nat, num: NumberParsers)
    requires n <= |lines| && Run(lines[..n], num).Err?
    ensures Run(lines, num) == Run(lines[..n], num)
    decreases |lines| - n
  {
    if n < |lines| {
      assert lines[..n + 1][..n] == lines[..n];
      RunStopsAtError(lines, n + 1, num);
    } else {
      assert lines[..n] == lines;
    }
  }

  /**
   * The body of the loop of `parse_nist_file` for one line: strip it; a
   * comment updates the metadata (a malformed atomic number or density
   * raises); any other non-blank line whose first three tokens are numbers
   * appends one value to each of the three columns.
   */
  method ScanLine(st: Scan, raw: string, num: NumberParsers) returns (r: Result<Scan, ParseError>)
    ensures r == Step(st, raw, num)
  {
    var energyKeV, f1, f2 := st.energyKeV, st.f1, st.f2;
    var materialName, density, atomicNumber := st.material, st.density, st.atomicNumber;
    var line := Strip(raw);
    if StartsWith(line, "#") {
      if Contains(line, "Z =") {
        SplitHasSecondPiece(line, "Z =");
        var text := Strip(Split(line, "Z =")[1]);
        var z := num.toInt(text);
        if z.None? {
          return Err(InvalidAtomicNumber(text));
        }
        atomicNumber := z;
      } else if Contains(line, "Density:") {
        SplitHasSecondPiece(line, "Density:");
        var text := Strip(Split(Split(line, "Density:")[1], "g/cm3")[0]);
        var d := num.toFloat(text);
        if d.None? {
          return Err(InvalidDensity(text));
        }
        density := d;
      } else if Contains(line, "(") && Contains(line, ")") {
        if materialName == "" {
          var start := Find(line, "(");
          var end := Find(line, ")");
          if start.Some? && end.Some? {
            materialName := Slice(line, start.value + 1, end.value);
          }
        }
      }
      return Ok(Scan(energyKeV, f1, f2, materialName, density, atomicNumber));
    }
    if line != [] && !StartsWith(line, "#") {
      var parts := Tokens(line);
      if |parts| >= 3 {
        var energy := num.toFloat(parts[0]);
        var v1 := num.toFloat(parts[1]);
        var v2 := num.toFloat(parts[2]);
        if energy.Some? && v1.Some? && v2.Some? {
          energyKeV := energyKeV + [energy.value];
          f1 := f1 + [v1.value];
          f2 := f2 + [v2.value];
        }
      }
    }
    return Ok(Scan(energyKeV, f1, f2, materialName, density, atomicNumber));
  }

  /**
   * `parse_nist_file` on the lines of a file: the loop over the lines, which
   * stops at the first line that raises.
   */
  method ParseNistFile(lines: seq<string>, num: NumberParsers) returns (r: Result<NistData, ParseError>)
    ensures r == ParseNist(lines, num)
  {
    var st := Initial;
    for i := 0 to |lines|
      invariant Run(lines[..i], num) == Ok(st)
    {
      assert lines[..i + 1][..i] == lines[..i];
      var next := ScanLine(st, lines[i], num);
      if next.Err? {
        RunStopsAtError(lines, i + 1, num);
        return Err(next.error);
      }
      st := next.value;
    }
    assert lines[..|lines|] == lines;
    r := Ok(Assemble(st));
  }
}
