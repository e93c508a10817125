/**
 * What `parse_nist_file` computes, stated without the loop: the columns are
 * the accepted data rows in file order, the first malformed metadata value
 * raises, the last atomic-number and density lines win, and the first
 * non-empty parenthesised name wins. Each reference below is defined over
 * the whole file from the front; the lemmas show the loop (`Run`, built
 * from the back) agrees with it.
 */
module NistProperties {
  import opened Wrappers
  import opened PyText
  import opened NistParse

  /** A non-comment line whose first three tokens all convert with `float()`. */
  predicate IsDataRow(raw: string, num: NumberParsers) {
    !IsComment(raw) &&
    var t := Tokens(Strip(raw));
    |t| >= 3 && num.toFloat(t[0]).Some? && num.toFloat(t[1]).Some? && num.toFloat(t[2]).Some?
  }

  /** The (energy, f1, f2) row a line contributes: tokens 0, 1 and 2, the rest ignored. */
  function RowOf(raw: string, num: NumberParsers): seq<(real, real, real)> {
    if IsDataRow(raw, num) then
      var t := Tokens(Strip(raw));
      [(num.toFloat(t[0]).value, num.toFloat(t[1]).value, num.toFloat(t[2]).value)]
    else []
  }

  /** The accepted rows of a file, in file order. */
  function RowsOf(lines: seq<string>, num: NumberParsers): seq<(real, real, real)> {
    if lines == [] then [] else RowOf(lines[0], num) + RowsOf(lines[1..], num)
  }

  /** The ValueError a line raises, if any. */
  function Failure(raw: string, num: NumberParsers): Option<ParseError> {
    match Classify(raw, num)
    case AtomicNumberLine(text, None) => Some(InvalidAtomicNumber(text))
    case DensityLine(text, None) => Some(InvalidDensity(text))
    case _ => None
  }

  /** The error raised by the first line of the file that raises. */
  function FirstFailure(lines: seq<string>, num: NumberParsers): Option<ParseError> {
    if lines == [] then None
    else if Failure(lines[0], num).Some? then Failure(lines[0], num)
    else FirstFailure(lines[1..], num)
  }

  function AtomicNumberOf(raw: string, num: NumberParsers): Option<int> {
    match Classify(raw, num)
    case AtomicNumberLine(_, z) => z
    case _ => None
  }

  /** The atomic number given by the last "Z =" comment, `None` if there is none. */
  function LastAtomicNumber(lines: seq<string>, num: NumberParsers): Option<int> {
    if lines == [] then None
    else
      var later := LastAtomicNumber(lines[1..], num);
      if later.Some? then later else AtomicNumberOf(lines[0], num)
  }

  function DensityOf(raw: string, num: NumberParsers): Option<real> {
    match Classify(raw, num)
    case DensityLine(_, d) => d
    case _ => None
  }

  /** The density given by the last "Density:" comment (without "Z ="), `None` if there is none. */
  function LastDensity(lines: seq<string>, num: NumberParsers): Option<real> {
    if lines == [] then None
    else
      var later := LastDensity(lines[1..], num);
      if later.Some? then later else DensityOf(lines[0], num)
  }

  function NameOf(raw: string, num: NumberParsers): string {
    match Classify(raw, num)
    case NameLine(name) => name
    case _ => ""
  }

  /** The first non-empty name between parentheses in a plain comment, "" if there is none. */
  function FirstName(lines: seq<string>, num: NumberParsers): string {
    if lines == [] then ""
    else if NameOf(lines[0], num) != "" then NameOf(lines[0], num)
    else FirstName(lines[1..], num)
  }

  // ----- the references split over a concatenation -----

  lemma {:induction false} RowsOfConcat(a: seq<string>, b: seq<string>, num: NumberParsers)
    ensures RowsOf(a + b, num) == RowsOf(a, num) + RowsOf(b, num)
  {
    if a != [] {
      assert (a + b)[1..] == a[1..] + b;
      RowsOfConcat(a[1..], b, num);
    } else {
      assert a + b == b;
    }
  }

  lemma {:induction false} FirstFailureConcat(a: seq<string>, b: seq<string>, num: NumberParsers)
    ensures FirstFailure(a + b, num) ==
            if FirstFailure(a, num).Some? then FirstFailure(a, num) else FirstFailure(b, num)
  {
    if a != [] {
      assert (a + b)[1..] == a[1..] + b;
      FirstFailureConcat(a[1..], b, num);
    } else {
      assert a + b == b;
    }
  }

  lemma {:induction false} LastAtomicNumberConcat(a: seq<string>, b: seq<string>, num: NumberParsers)
    ensures LastAtomicNumber(a + b, num) ==
            if LastAtomicNumber(b, num).Some? then LastAtomicNumber(b, num) else LastAtomicNumber(a, num)
  {
    if a != [] {
      assert (a + b)[1..] == a[1..] + b;
      LastAtomicNumberConcat(a[1..], b, num);
    } else {
      assert a + b == b;
    }
  }

  lemma {:induction false} LastDensityConcat(a: seq<string>, b: seq<string>, num: NumberParsers)
    ensures LastDensity(a + b, num) ==
            if LastDensity(b, num).Some? then LastDensity(b, num) else LastDensity(a, num)
  {
    if a != [] {
      assert (a + b)[1..] == a[1..] + b;
      LastDensityConcat(a[1..], b, num);
    } else {
      assert a + b == b;
    }
  }

  lemma {:induction false} FirstNameConcat(a: seq<string>, b: seq<string>, num: NumberParsers)
    ensures FirstName(a + b, num) ==
            if FirstName(a, num) != "" then FirstName(a, num) else FirstName(b, num)
  {
    if a != [] {
      assert (a + b)[1..] == a[1..] + b;
      FirstNameConcat(a[1..], b, num);
    } else {
      assert a + b == b;
    }
  }

  /** A one-line file: each reference reads its line. */
  lemma SingleLine(raw: string, num: NumberParsers)
    ensures RowsOf([raw], num) == RowOf(raw, num)
    ensures FirstFailure([raw], num) == Failure(raw, num)
    ensures LastAtomicNumber([raw], num) == AtomicNumberOf(raw, num)
    ensures LastDensity([raw], num) == DensityOf(raw, num)
    ensures FirstName([raw], num) == NameOf(raw, num)
  {
    assert [raw][1..] == [];
  }

  /** The loop's step agrees with the per-line readings the references use. */
  lemma StepReadsLine(st: Scan, raw: string, num: NumberParsers)
    ensures Step(st, raw, num).Err? <==> Failure(raw, num).Some?
    ensures Step(st, raw, num).Err? ==> Step(st, raw, num).error == Failure(raw, num).value
    ensures Step(st, raw, num).Ok? ==>
      var st' := Step(st, raw, num).value;
      var row := RowOf(raw, num);
      && st'.energyKeV == st.energyKeV + (if row == [] then [] else [row[0].0])
      && st'.f1 == st.f1 + (if row == [] then [] else [row[0].1])
      && st'.f2 == st.f2 + (if row == [] then [] else [row[0].2])
      && st'.atomicNumber == (if AtomicNumberOf(raw, num).Some? then AtomicNumberOf(raw, num) else st.atomicNumber)
      && st'.density == (if DensityOf(raw, num).Some? then DensityOf(raw, num) else st.density)
      && st'.material == (if st.material != "" then st.material else NameOf(raw, num))
  {
    var line := Strip(raw);
    if !StartsWith(line, "#") && line != [] {
      var parts := Tokens(line);
      assert Classify(raw, num).DataRow? <==> IsDataRow(raw, num);
    }
  }

  // ----- the loop agrees with the references -----

  /**
   * `parse_nist_file` raises exactly when some line holds a malformed atomic
   * number or density, and what it raises is the error of the first such line.
   */
  lemma {:induction false} RunRaisesFirstFailure(lines: seq<string>, num: NumberParsers)
    ensures Run(lines, num).Err? <==> FirstFailure(lines, num).Some?
    ensures Run(lines, num).Err? ==> FirstFailure(lines, num) == Some(Run(lines, num).error)
    decreases |lines|
  {
    if lines != [] {
      var init, last := lines[..|lines| - 1], lines[|lines| - 1];
      assert lines == init + [last];
      RunRaisesFirstFailure(init, num);
      FirstFailureConcat(init, [last], num);
      SingleLine(last, num);
      if Run(init, num).Ok? {
        StepReadsLine(Run(init, num).value, last, num);
      }
    }
  }

  /**
   * The three columns have one common length, the number of accepted rows,
   * and entry i of each column comes from the i-th accepted row.
   */
  lemma {:induction false} RunColumnsAreRows(lines: seq<string>, num: NumberParsers)
    requires Run(lines, num).Ok?
    ensures var st := Run(lines, num).value;
      && |st.energyKeV| == |st.f1| == |st.f2| == |RowsOf(lines, num)|
      && forall i :: 0 <= i < |RowsOf(lines, num)| ==>
           RowsOf(lines, num)[i] == (st.energyKeV[i], st.f1[i], st.f2[i])
    decreases |lines|
  {
    if lines != [] {
      var init, last := lines[..|lines| - 1], lines[|lines| - 1];
      assert lines == init + [last];
      RunColumnsAreRows(init, num);
      RowsOfConcat(init, [last], num);
      SingleLine(last, num);
      StepReadsLine(Run(init, num).value, last, num);
    }
  }

  /** The atomic number is the one on the last "Z =" comment: the last such line wins. */
  lemma {:induction false} RunAtomicNumberIsLast(lines: seq<string>, num: NumberParsers)
    requires Run(lines, num).Ok?
    ensures Run(lines, num).value.atomicNumber == LastAtomicNumber(lines, num)
    decreases |lines|
  {
    if lines != [] {
      var init, last := lines[..|lines| - 1], lines[|lines| - 1];
      assert lines == init + [last];
      RunAtomicNumberIsLast(init, num);
      LastAtomicNumberConcat(init, [last], num);
      SingleLine(last, num);
      StepReadsLine(Run(init, num).value, last, num);
    }
  }

  /** The density is the one on the last "Density:" comment: the last such line wins. */
  lemma {:induction false} RunDensityIsLast(lines: seq<string>, num: NumberParsers)
    requires Run(lines, num).Ok?
    ensures Run(lines, num).value.density == LastDensity(lines, num)
    decreases |lines|
  {
    if lines != [] {
      var init, last := lines[..|lines| - 1], lines[|lines| - 1];
      assert lines == init + [last];
      RunDensityIsLast(init, num);
      LastDensityConcat(init, [last], num);
      SingleLine(last, num);
      StepReadsLine(Run(init, num).value, last, num);
    }
  }

  /** The material name is the first non-empty parenthesised name: later ones never replace it. */
  lemma {:induction false} RunMaterialIsFirstName(lines: seq<string>, num: NumberParsers)
    requires Run(lines, num).Ok?
    ensures Run(lines, num).value.material == FirstName(lines, num)
    decreases |lines|
  {
    if lines != [] {
      var init, last := lines[..|lines| - 1], lines[|lines| - 1];
      assert lines == init + [last];
      RunMaterialIsFirstName(init, num);
      FirstNameConcat(init, [last], num);
      SingleLine(last, num);
      StepReadsLine(Run(init, num).value, last, num);
    }
  }

  /** Some line raises exactly when the first raising line exists. */
  lemma {:induction false} FirstFailureFindsAny(lines: seq<string>, num: NumberParsers)
    ensures FirstFailure(lines, num).Some? <==> exists k :: 0 <= k < |lines| && Failure(lines[k], num).Some?
    ensures FirstFailure(lines, num).Some? ==>
      exists k :: 0 <= k < |lines| && FirstFailure(lines, num) == Failure(lines[k], num)
               && forall j :: 0 <= j < k ==> Failure(lines[j], num).None?
  {
    FirstFailureNoneIffQuiet(lines, num);
    if FirstFailure(lines, num).Some? {
      FirstFailureIsFirstRaising(lines, num);
    }
  }

  /** No line raises exactly when the first failure is `None`. */
  lemma {:induction false} FirstFailureNoneIffQuiet(lines: seq<string>, num: NumberParsers)
    ensures FirstFailure(lines, num).None? <==> forall k :: 0 <= k < |lines| ==> Failure(lines[k], num).None?
  {
    if lines != [] {
      var tail := lines[1..];
      FirstFailureNoneIffQuiet(tail, num);
      forall k | 1 <= k < |lines|
        ensures lines[k] == tail[k - 1]
      {
      }
    }
  }

  /** A first failure is the error of some line, and every line before it is quiet. */
  lemma {:induction false} FirstFailureIsFirstRaising(lines: seq<string>, num: NumberParsers)
    requires FirstFailure(lines, num).Some?
    ensures exists k :: 0 <= k < |lines| && FirstFailure(lines, num) == Failure(lines[k], num)
               && forall j :: 0 <= j < k ==> Failure(lines[j], num).None?
  {
    if Failure(lines[0], num).None? {
      var tail := lines[1..];
      FirstFailureIsFirstRaising(tail, num);
      var k :| 0 <= k < |tail| && FirstFailure(tail, num) == Failure(tail[k], num)
               && forall j :: 0 <= j < k ==> Failure(tail[j], num).None?;
      assert lines[k + 1] == tail[k];
      forall j | 1 <= j < k + 1
        ensures Failure(lines[j], num).None?
      {
        assert lines[j] == tail[j - 1];
      }
    } else {
      assert FirstFailure(lines, num) == Failure(lines[0], num);
    }
  }

  /** Runs that agree after `a` and after `b` agree after any further lines. */
  lemma {:induction false} RunExtends(a: seq<string>, b: seq<string>, q: seq<string>, num: NumberParsers)
    requires Run(a, num) == Run(b, num)
    ensures Run(a + q, num) == Run(b + q, num)
    decreases |q|
  {
    if q == [] {
      assert a + q == a && b + q == b;
    } else {
      var q', last := q[..|q| - 1], q[|q| - 1];
      RunExtends(a, b, q', num);
      assert (a + q)[..|a + q| - 1] == a + q' && (a + q)[|a + q| - 1] == last;
      assert (b + q)[..|b + q| - 1] == b + q' && (b + q)[|b + q| - 1] == last;
    }
  }

  /**
   * A blank line, a line with fewer than three tokens, or a line one of whose
   * first three tokens is not a number, can be deleted from the file without
   * changing the outcome: it touches neither the columns nor the metadata.
   */
  lemma NonDataLineIsIgnored(p: seq<string>, s: string, q: seq<string>, num: NumberParsers)
    requires !IsComment(s) && !IsDataRow(s, num)
    ensures Run(p + [s] + q, num) == Run(p + q, num)
  {
    var line := Strip(s);
    if line != [] {
      assert Classify(s, num).DataRow? <==> IsDataRow(s, num);
    }
    assert Classify(s, num) == Skipped;
    assert (p + [s])[..|p|] == p;
    assert Run(p + [s], num) == Run(p, num);
    RunExtends(p + [s], p, q, num);
    assert p + [s] + q == (p + [s]) + q;
  }

  /** Deleting a comment line keeps the accepted rows. */
  lemma DeletingCommentKeepsRows(p: seq<string>, c: string, q: seq<string>, num: NumberParsers)
    requires IsComment(c)
    ensures RowsOf(p + [c] + q, num) == RowsOf(p + q, num)
  {
    assert RowOf(c, num) == [];
    assert RowsOf([c], num) == [] by { SingleLine(c, num); }
    calc {
      RowsOf(p + [c] + q, num);
      { RowsOfConcat(p + [c], q, num); }
      RowsOf(p + [c], num) + RowsOf(q, num);
      { RowsOfConcat(p, [c], num); assert RowsOf(p, num) + [] == RowsOf(p, num); }
      RowsOf(p, num) + RowsOf(q, num);
      { RowsOfConcat(p, q, num); }
      RowsOf(p + q, num);
    }
  }

  /** Deleting a comment line cannot make a file that does not raise start raising. */
  lemma DeletingCommentKeepsQuiet(p: seq<string>, c: string, q: seq<string>, num: NumberParsers)
    requires FirstFailure(p + [c] + q, num).None?
    ensures FirstFailure(p + q, num).None?
  {
    FirstFailureConcat(p + [c], q, num);
    FirstFailureConcat(p, [c], num);
    FirstFailureConcat(p, q, num);
  }

  /**
   * A comment line never adds data: deleting it leaves a run that still
   * succeeds and has the same three columns.
   */
  lemma CommentLineAddsNoData(p: seq<string>, c: string, q: seq<string>, num: NumberParsers)
    requires IsComment(c)
    requires Run(p + [c] + q, num).Ok?
    ensures Run(p + q, num).Ok?
    ensures Run(p + q, num).value.energyKeV == Run(p + [c] + q, num).value.energyKeV
    ensures Run(p + q, num).value.f1 == Run(p + [c] + q, num).value.f1
    ensures Run(p + q, num).value.f2 == Run(p + [c] + q, num).value.f2
  {
    var with, without := p + [c] + q, p + q;
    DeletingCommentKeepsRows(p, c, q, num);
    RunRaisesFirstFailure(with, num);
    DeletingCommentKeepsQuiet(p, c, q, num);
    RunRaisesFirstFailure(without, num);
    RunColumnsAreRows(with, num);
    RunColumnsAreRows(without, num);
    var st, st' := Run(with, num).value, Run(without, num).value;
    assert st.energyKeV == st'.energyKeV;
    assert st.f1 == st'.f1;
    assert st.f2 == st'.f2;
  }

  /**
   * A comment holding "Z =" is read as the atomic number whatever else it
   * holds: it never changes the density, the material name or the columns.
   */
  lemma AtomicNumberLineTakesPrecedence(st: Scan, raw: string, num: NumberParsers)
    requires IsComment(raw) && Contains(Strip(raw), "Z =")
    ensures Step(st, raw, num).Ok? ==> Step(st, raw, num).value == st.(atomicNumber := Step(st, raw, num).value.atomicNumber)
    ensures Step(st, raw, num).Err? <==> num.toInt(AtomicNumberText(Strip(raw))).None?
  {
  }

  /**
   * What `parse_nist_file` returns, stated whole: it raises exactly when some
   * line holds a malformed atomic number or density (the first such line's
   * error); otherwise the three columns are the accepted rows in file order
   * and the metadata is the last atomic number, the last density and the
   * first non-empty material name, with the fixed source and descriptions.
   */
  lemma ParseNistSpec(lines: seq<string>, num: NumberParsers)
    ensures ParseNist(lines, num).Err? <==> exists k :: 0 <= k < |lines| && Failure(lines[k], num).Some?
    ensures ParseNist(lines, num).Err? ==> FirstFailure(lines, num) == Some(ParseNist(lines, num).error)
    ensures ParseNist(lines, num).Ok? ==>
      var d := ParseNist(lines, num).value;
      var rows := RowsOf(lines, num);
      && |d.energyKeV| == |d.f1| == |d.f2| == |rows|
      && (forall i :: 0 <= i < |rows| ==> rows[i] == (d.energyKeV[i], d.f1[i], d.f2[i]))
      && d.metadata.atomicNumber == LastAtomicNumber(lines, num)
      && d.metadata.densityGcm3 == LastDensity(lines, num)
      && d.metadata.material == FirstName(lines, num)
      && d.metadata.description == DescriptionPrefix + FirstName(lines, num)
      && d.metadata.source == Source
  {
    RunRaisesFirstFailure(lines, num);
    FirstFailureFindsAny(lines, num);
    if Run(lines, num).Ok? {
      RunColumnsAreRows(lines, num);
      RunAtomicNumberIsLast(lines, num);
      RunDensityIsLast(lines, num);
      RunMaterialIsFirstName(lines, num);
    }
  }
}
