/** What the input checks and the list parsing promise, for every input. */
module InputsProperties {
  import opened Strings
  import opened ActionsCore
  import opened Wrappers
  import opened Seqs
  import opened Inputs

  /** No error is reported exactly when every required input is given. */
  lemma {:induction false} NoErrorsIffAllGiven(coreLib: CoreLib, names: seq<string>)
    ensures MissingErrors(coreLib, names) == [] <==> forall n | n in names :: coreLib.GetInput(n) != ""
  {
    if names != [] {
      var init := names[..|names| - 1];
      NoErrorsIffAllGiven(coreLib, init);
      assert names == init + [names[|names| - 1]];
      if MissingErrors(coreLib, names) == [] {
        forall n | n in names ensures coreLib.GetInput(n) != "" {
          if n in init {
          } else {
            assert n == names[|names| - 1];
          }
        }
      }
    }
  }

  /** Every error names a required input that is missing, and every missing one is named. */
  lemma {:induction false} MissingErrorsNameTheMissing(coreLib: CoreLib, names: seq<string>, e: string)
    ensures e in MissingErrors(coreLib, names)
        <==> exists n | n in names :: coreLib.GetInput(n) == "" && e == n + " is required"
  {
    if names != [] {
      var init, last := names[..|names| - 1], names[|names| - 1];
      MissingErrorsNameTheMissing(coreLib, init, e);
      assert names == init + [last];
      if e in MissingErrors(coreLib, names) && e !in MissingErrors(coreLib, init) {
        assert e in Requirement(coreLib, last);
        assert last in names;
      }
      if exists n | n in names :: coreLib.GetInput(n) == "" && e == n + " is required" {
        var n :| n in names && coreLib.GetInput(n) == "" && e == n + " is required";
        if n !in init {
          assert n == last;
          assert e in Requirement(coreLib, last);
        }
      }
    }
  }

  lemma {:induction false} NonEmptyConcat(a: seq<string>, b: seq<string>)
    ensures NonEmpty(a + b) == NonEmpty(a) + NonEmpty(b)
    decreases |b|
  {
    if b == [] {
      assert a + b == a;
    } else {
      var init, last := b[..|b| - 1], b[|b| - 1];
      NonEmptyConcat(a, init);
      var ab := a + b;
      assert ab[..|ab| - 1] == a + init && ab[|ab| - 1] == last;
      var kept := if last != "" then [last] else [];
      assert NonEmpty(ab) == NonEmpty(a + init) + kept;
      assert NonEmpty(b) == NonEmpty(init) + kept;
      var x, y := NonEmpty(a), NonEmpty(init);
      assert (x + y) + kept == x + (y + kept);
    }
  }

  /** Parsing a list joined by a comma parses each side, in order. */
  lemma ParseListConcat(a: string, b: string)
    ensures ParseList(a + "," + b) == ParseList(a) + ParseList(b)
  {
    assert a + "," + b == a + [','] + b;
    SplitAround(a, b, ',');
    MapAppend(Trim, Split(a, ','), Split(b, ','));
    NonEmptyConcat(TrimAll(Split(a, ',')), TrimAll(Split(b, ',')));
  }

  lemma {:induction false} SplitWithoutSeparator(s: string, sep: char)
    requires sep !in s
    ensures Split(s, sep) == [s]
  {
    if s != [] {
      SplitWithoutSeparator(s[1..], sep);
      assert s == [s[0]] + s[1..];
    }
  }

  /** A piece without commas parses to its trimmed self, or to nothing when that is empty. */
  lemma ParseSinglePiece(s: string)
    requires ',' !in s
    ensures ParseList(s) == if Trim(s) == "" then [] else [Trim(s)]
  {
    SplitWithoutSeparator(s, ',');
    var t := Trim(s);
    assert TrimAll([s]) == [t];
    assert [t][..0] == [];
    assert ParseList(s) == NonEmpty([t]);
    assert NonEmpty([t]) == NonEmpty([]) + (if t != "" then [t] else []);
  }

  /** What `filter` keeps is non-empty and was there before. */
  lemma {:induction false} NonEmptyKeeps(pieces: seq<string>, e: string) returns (k: nat)
    requires e in NonEmpty(pieces)
    ensures e != "" && k < |pieces| && pieces[k] == e
  {
    var init := pieces[..|pieces| - 1];
    if e in NonEmpty(init) {
      k := NonEmptyKeeps(init, e);
    } else {
      k := |pieces| - 1;
    }
  }


  /**
   * A list element as the action hands it on: non-empty, neither starting
   * nor ending with whitespace, and free of commas.
   */
  predicate Clean(e: string) {
    e != "" && !IsWhitespace(e[0]) && !IsWhitespace(e[|e| - 1]) && ',' !in e
  }

  /** Every parsed element is clean. */
  lemma ParsedElementsAreClean(input: string, e: string)
    requires e in ParseList(input)
    ensures Clean(e)
  {
    var piece := ParsedFrom(input, e);
    TrimmedPieceIsClean(piece);
  }

  /** A parsed element is the trimmed form of one comma-free piece of the input. */
  lemma ParsedFrom(input: string, e: string) returns (piece: string)
    requires e in ParseList(input)
    ensures ',' !in piece && e == Trim(piece) && e != ""
  {
    var pieces := Split(input, ',');
    var trimmed := TrimAll(pieces);
    assert ParseList(input) == NonEmpty(trimmed);
    var k := NonEmptyKeeps(trimmed, e);
    piece := pieces[k];
  }

  /** A comma-free piece that does not trim to nothing trims to a clean element. */
  lemma TrimmedPieceIsClean(piece: string)
    requires ',' !in piece
    ensures Trim(piece) != "" ==> Clean(Trim(piece))
  {
  }

  /** An unknown project type is one in the list and not among the three valid ones. */
  lemma {:induction false} InvalidTypesAreUnknown(types: seq<string>, t: string)
    ensures t in InvalidTypes(types) <==> t in types && t !in ValidProjectTypes
  {
    if types != [] {
      var init := types[..|types| - 1];
      InvalidTypesAreUnknown(init, t);
      assert types == init + [types[|types| - 1]];
    }
  }

  /**
   * An input made only of commas and spaces keeps an empty category list,
   * while the same text as a project type gives no filter at all.
   */
  lemma EmptyListsDiffer(input: string)
    requires input != "" && ParseList(input) == []
    ensures CategoryFilter(input) == Some([]) && TypeFilter(input) == None
  {
  }

  /** The category filter is absent exactly for the empty input, and otherwise the parsed list. */
  lemma CategoryFilterMeaning(input: string)
    ensures CategoryFilter(input).None? <==> input == ""
    ensures CategoryFilter(input).Some? ==> CategoryFilter(input).value == ParseList(input)
  {
  }

  /** The type filter, when present, is a non-empty parsed list. */
  lemma TypeFilterMeaning(input: string)
    ensures TypeFilter(input).None? <==> ParseList(input) == []
    ensures TypeFilter(input).Some? ==> TypeFilter(input).value == ParseList(input) && |ParseList(input)| > 0
  {
    if input == "" {
      ParseEmpty();
    }
  }

  /** The query is passed through untouched, and only the empty one is dropped. */
  lemma ProjectQueryMeaning(input: string)
    ensures ProjectQuery(input).None? <==> input == ""
    ensures ProjectQuery(input).Some? ==> ProjectQuery(input).value == input
  {
  }
}
